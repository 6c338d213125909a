/** Embedding a mixed batch: one provider call per modality, then the vectors are
    written back to the positions they came from. */
module BatchEmbedding {
  import opened Common

  datatype Modality = Image | Text
  datatype EmbedInput = EmbedInput(modality: Modality, imageBytes: Option<Bytes>, text: Option<string>)
  datatype EmbeddingResult = EmbeddingResult(vector: Vector, phash: Option<string>)
  datatype EmbedError = EmptyBatch | ProviderFailed(why: string)

  /** The provider decides how many vectors it returns for a batch. */
  datatype Provider = Provider(embedImages: seq<Bytes> -> Result<seq<Vector>, EmbedError>,
                               embedTexts: seq<string> -> Result<seq<Vector>, EmbedError>,
                               perceptualHash: Bytes -> Result<string, EmbedError>)

  function BytesOf(x: EmbedInput): Bytes { if x.imageBytes.Some? then x.imageBytes.value else [] }
  function TextOf(x: EmbedInput): string { if x.text.Some? then x.text.value else "" }

  // ---- Partition ----

  /** The positions of one modality, in order. */
  function Positions(inputs: seq<EmbedInput>, m: Modality): seq<nat> {
    if inputs == [] then []
    else Positions(inputs[..|inputs| - 1], m) + (if inputs[|inputs| - 1].modality == m then [|inputs| - 1] else [])
  }

  /** How many inputs of the modality of input `i` come before it. */
  function Rank(inputs: seq<EmbedInput>, i: nat): nat
    requires i < |inputs|
  {
    |Positions(inputs[..i], inputs[i].modality)|
  }

  function Images(inputs: seq<EmbedInput>): seq<Bytes> {
    if inputs == [] then []
    else Images(inputs[..|inputs| - 1]) + (if inputs[|inputs| - 1].modality.Image? then [BytesOf(inputs[|inputs| - 1])] else [])
  }

  function Texts(inputs: seq<EmbedInput>): seq<string> {
    if inputs == [] then []
    else Texts(inputs[..|inputs| - 1]) + (if inputs[|inputs| - 1].modality.Text? then [TextOf(inputs[|inputs| - 1])] else [])
  }

  lemma {:induction false} PositionAt(inputs: seq<EmbedInput>, m: Modality, j: nat)
    requires j < |Positions(inputs, m)|
    ensures var i := Positions(inputs, m)[j]; i < |inputs| && inputs[i].modality == m && Rank(inputs, i) == j
  {
    var front := inputs[..|inputs| - 1];
    if j < |Positions(front, m)| {
      PositionAt(front, m, j);
      assert inputs[..Positions(front, m)[j]] == front[..Positions(front, m)[j]];
    }
  }

  /** Ranks and positions are inverse, so scattering puts every vector back. */
  lemma {:induction false} PositionOfRank(inputs: seq<EmbedInput>, i: nat)
    requires i < |inputs|
    ensures var ps := Positions(inputs, inputs[i].modality); Rank(inputs, i) < |ps| && ps[Rank(inputs, i)] == i
  {
    var front := inputs[..|inputs| - 1];
    if i < |front| {
      PositionOfRank(front, i);
      assert inputs[..i] == front[..i];
    }
  }

  lemma {:induction false} GatheredAt(inputs: seq<EmbedInput>, i: nat)
    requires i < |inputs|
    ensures inputs[i].modality.Image? ==> Rank(inputs, i) < |Images(inputs)| && Images(inputs)[Rank(inputs, i)] == BytesOf(inputs[i])
    ensures inputs[i].modality.Text? ==> Rank(inputs, i) < |Texts(inputs)| && Texts(inputs)[Rank(inputs, i)] == TextOf(inputs[i])
  {
    var front := inputs[..|inputs| - 1];
    GatheredSizes(front);
    if i < |front| {
      GatheredAt(front, i);
      assert inputs[..i] == front[..i];
    }
  }

  lemma {:induction false} GatheredSizes(inputs: seq<EmbedInput>)
    ensures |Images(inputs)| == |Positions(inputs, Image)| && |Texts(inputs)| == |Positions(inputs, Text)|
    ensures |Images(inputs)| + |Texts(inputs)| == |inputs|
  {
    if inputs != [] { GatheredSizes(inputs[..|inputs| - 1]); }
  }

  // ---- The whole batch ----

  /** The hashes of some images, or the first failure. */
  function Hashes(p: Provider, images: seq<Bytes>): Result<seq<string>, EmbedError> {
    if images == [] then Ok([])
    else match Hashes(p, images[..|images| - 1])
      case Err(e) => Err(e)
      case Ok(hs) =>
        match p.perceptualHash(images[|images| - 1])
        case Err(e) => Err(e)
        case Ok(h) => Ok(hs + [h])
  }

  /** What ends up at position `i`, if anything does. */
  function Slot(inputs: seq<EmbedInput>, images: seq<Vector>, hashes: seq<string>, texts: seq<Vector>, i: nat): Option<EmbeddingResult>
    requires i < |inputs|
  {
    var j := Rank(inputs, i);
    if inputs[i].modality.Image? then ImageSlot(images, hashes, j)
    else if j < |texts| then Some(EmbeddingResult(texts[j], None)) else None
  }

  function ImageSlot(images: seq<Vector>, hashes: seq<string>, j: nat): Option<EmbeddingResult> {
    if j < |images| then Some(EmbeddingResult(images[j], if j < |hashes| then Some(hashes[j]) else None)) else None
  }

  function Slots(inputs: seq<EmbedInput>, images: seq<Vector>, hashes: seq<string>, texts: seq<Vector>): seq<Option<EmbeddingResult>> {
    seq(|inputs|, i requires 0 <= i < |inputs| => Slot(inputs, images, hashes, texts, i))
  }

  /** `[r for r in results if r is not None]` */
  function Present<T>(s: seq<Option<T>>): seq<T> {
    if s == [] then []
    else Present(s[..|s| - 1]) + (if s[|s| - 1].Some? then [s[|s| - 1].value] else [])
  }

  function ImageVectors(p: Provider, inputs: seq<EmbedInput>): Result<seq<Vector>, EmbedError> {
    if Images(inputs) == [] then Ok([]) else p.embedImages(Images(inputs))
  }

  function TextVectors(p: Provider, inputs: seq<EmbedInput>): Result<seq<Vector>, EmbedError> {
    if Texts(inputs) == [] then Ok([]) else p.embedTexts(Texts(inputs))
  }

  function Batch(p: Provider, inputs: seq<EmbedInput>, includePhash: bool): Result<seq<EmbeddingResult>, EmbedError> {
    if inputs == [] then Err(EmptyBatch)
    else match ImageVectors(p, inputs)
      case Err(e) => Err(e)
      case Ok(images) =>
        match TextVectors(p, inputs)
        case Err(e) => Err(e)
        case Ok(texts) =>
          match if includePhash then Hashes(p, Take(Images(inputs), |images|)) else Ok([])
          case Err(e) => Err(e)
          case Ok(hashes) => Ok(Present(Slots(inputs, images, hashes, texts)))
  }

  lemma {:induction false} HashesOfPrefix(p: Provider, images: seq<Bytes>, n: nat)
    requires n <= |images|
    ensures Hashes(p, images[..n]).Err? ==> Hashes(p, images) == Hashes(p, images[..n])
    ensures Hashes(p, images).Ok? ==> |Hashes(p, images).value| == |images|
    decreases |images|
  {
    if images != [] {
      HashesOfPrefix(p, images[..|images| - 1], if n < |images| then n else n - 1);
      if n < |images| {
        assert images[..|images| - 1][..n] == images[..n];
      } else {
        assert images[..n] == images;
      }
    }
  }

  lemma HashesStep(p: Provider, images: seq<Bytes>, n: nat)
    requires n < |images| && Hashes(p, images[..n]).Ok?
    ensures match p.perceptualHash(images[n])
            case Err(e) => Hashes(p, images) == Err(e)
            case Ok(h) => Hashes(p, images[..n + 1]) == Ok(Hashes(p, images[..n]).value + [h])
  {
    assert images[..n + 1][..n] == images[..n];
    HashesOfPrefix(p, images, n + 1);
  }

  class GenerateEmbeddings {
    const provider: Provider

    constructor (provider: Provider)
      ensures this.provider == provider
    {
      this.provider := provider;
    }

    method Execute(inputs: seq<EmbedInput>, includePhash: bool) returns (r: Result<seq<EmbeddingResult>, EmbedError>)
      ensures r == Batch(provider, inputs, includePhash)
    {
      if inputs == [] {
        return Err(EmptyBatch);
      }
      var imageVectors, textVectors := ImageVectors(provider, inputs), TextVectors(provider, inputs);
      if imageVectors.Err? {
        return Err(imageVectors.error);
      }
      if textVectors.Err? {
        return Err(textVectors.error);
      }
      var images, texts := imageVectors.value, textVectors.value;
      var results := new Option<EmbeddingResult>[|inputs|](_ => None);
      var hashes := ScatterImages(results, inputs, images, includePhash);
      if hashes.Err? {
        return Err(hashes.error);
      }
      ScatterTexts(results, inputs, images, hashes.value, texts);
      assert results[..] == Slots(inputs, images, hashes.value, texts);
      r := Ok(Present(results[..]));
    }

    /** The first loop. */
    method ScatterImages(results: array<Option<EmbeddingResult>>, inputs: seq<EmbedInput>, images: seq<Vector>, includePhash: bool)
      returns (r: Result<seq<string>, EmbedError>)
      requires results.Length == |inputs| && forall i :: 0 <= i < |inputs| ==> results[i] == None
      modifies results
      ensures r == if includePhash then Hashes(provider, Take(Images(inputs), |images|)) else Ok([])
      ensures r.Ok? ==> forall i :: 0 <= i < |inputs| ==>
                results[i] == if inputs[i].modality.Image? then ImageSlot(images, r.value, Rank(inputs, i)) else None
    {
      var positions := Positions(inputs, Image);
      var hashes: seq<string> := [];
      GatheredSizes(inputs);
      RanksDiffer(inputs, Image);
      ghost var hashed := Take(Images(inputs), |images|);
      var n := 0;
      while n < |positions| && n < |images|
        invariant n <= |positions| && n <= |images| && n <= |hashed|
        invariant if includePhash then Hashes(provider, hashed[..n]) == Ok(hashes) && |hashes| == n else hashes == []
        invariant forall i :: 0 <= i < |inputs| ==>
                    results[i] == if inputs[i].modality.Image? && Rank(inputs, i) < n then ImageSlot(images, hashes, Rank(inputs, i)) else None
      {
        var pos := positions[n];
        PositionAt(inputs, Image, n);
        var phash: Option<string> := None;
        if includePhash {
          GatheredAt(inputs, pos);
          HashesStep(provider, hashed, n);
          var h := provider.perceptualHash(BytesOf(inputs[pos]));
          if h.Err? {
            return Err(h.error);
          }
          phash := Some(h.value);
          hashes := hashes + [h.value];
        }
        results[pos] := Some(EmbeddingResult(images[n], phash));
        n := n + 1;
      }
      assert hashed[..n] == hashed;
      AllSlotsReached(inputs);
      r := Ok(hashes);
    }

    /** The second loop. */
    method ScatterTexts(results: array<Option<EmbeddingResult>>, inputs: seq<EmbedInput>, images: seq<Vector>, hashes: seq<string>, texts: seq<Vector>)
      requires results.Length == |inputs|
      requires forall i :: 0 <= i < |inputs| ==> results[i] == if inputs[i].modality.Image? then ImageSlot(images, hashes, Rank(inputs, i)) else None
      modifies results
      ensures forall i :: 0 <= i < |inputs| ==> results[i] == Slot(inputs, images, hashes, texts, i)
    {
      var positions := Positions(inputs, Text);
      RanksDiffer(inputs, Text);
      var m := 0;
      while m < |positions| && m < |texts|
        invariant m <= |positions| && m <= |texts|
        invariant forall i :: 0 <= i < |inputs| ==>
                    results[i] == if inputs[i].modality.Image? || Rank(inputs, i) < m then Slot(inputs, images, hashes, texts, i) else None
      {
        var pos := positions[m];
        PositionAt(inputs, Text, m);
        results[pos] := Some(EmbeddingResult(texts[m], None));
        m := m + 1;
      }
      AllSlotsReached(inputs);
    }
  }

  lemma RanksDiffer(inputs: seq<EmbedInput>, m: Modality)
    ensures forall i, j :: 0 <= i < |inputs| && 0 <= j < |inputs| && inputs[i].modality == inputs[j].modality == m && Rank(inputs, i) == Rank(inputs, j) ==> i == j
  {
    forall i, j | 0 <= i < |inputs| && 0 <= j < |inputs| && inputs[i].modality == inputs[j].modality == m && Rank(inputs, i) == Rank(inputs, j) ensures i == j {
      PositionOfRank(inputs, i);
      PositionOfRank(inputs, j);
    }
  }

  lemma AllSlotsReached(inputs: seq<EmbedInput>)
    ensures forall i :: 0 <= i < |inputs| ==> Rank(inputs, i) < |Positions(inputs, inputs[i].modality)|
  {
    forall i | 0 <= i < |inputs| ensures Rank(inputs, i) < |Positions(inputs, inputs[i].modality)| {
      PositionOfRank(inputs, i);
    }
  }

  // ---- What a batch means ----

  /** A call on `xs` is the one-at-a-time function `f`: it succeeds exactly if `f`
      does on each of them, and then answers them in order. */
  ghost predicate OneByOne<A>(xs: seq<A>, answer: Result<seq<Vector>, EmbedError>, f: A -> Result<Vector, EmbedError>) {
    && (answer.Ok? <==> forall i :: 0 <= i < |xs| ==> f(xs[i]).Ok?)
    && (answer.Ok? ==> |answer.value| == |xs| && forall i :: 0 <= i < |xs| ==> f(xs[i]) == Ok(answer.value[i]))
  }

  /** On this batch the provider works one input at a time. An input it cannot
      decode fails the call it is in. */
  ghost predicate Pointwise(p: Provider, inputs: seq<EmbedInput>, image: Bytes -> Result<Vector, EmbedError>, text: string -> Result<Vector, EmbedError>) {
    && OneByOne(Images(inputs), ImageVectors(p, inputs), image)
    && OneByOne(Texts(inputs), TextVectors(p, inputs), text)
  }

  /** What one input comes out as on its own: an image from its bytes, a text from
      its text, either taken as empty when missing. */
  function Alone(p: Provider, x: EmbedInput, includePhash: bool, image: Bytes -> Result<Vector, EmbedError>, text: string -> Result<Vector, EmbedError>)
    : Result<EmbeddingResult, EmbedError>
  {
    match x
    case EmbedInput(Text, _, t) =>
      (match text(match t case Some(s) => s case None => "")
       case Err(e) => Err(e)
       case Ok(v) => Ok(EmbeddingResult(v, None)))
    case EmbedInput(Image, b, _) =>
      var bytes := match b case Some(bs) => bs case None => [];
      match image(bytes)
      case Err(e) => Err(e)
      case Ok(v) =>
        if !includePhash then Ok(EmbeddingResult(v, None))
        else
          match p.perceptualHash(bytes)
          case Err(e) => Err(e)
          case Ok(h) => Ok(EmbeddingResult(v, Some(h)))
  }

  lemma {:induction false} PresentOfFull<T>(s: seq<Option<T>>)
    requires forall i :: 0 <= i < |s| ==> s[i].Some?
    ensures |Present(s)| == |s| && forall i :: 0 <= i < |s| ==> s[i] == Some(Present(s)[i])
  {
    if s != [] { PresentOfFull(s[..|s| - 1]); }
  }

  lemma {:induction false} HashesOneByOne(p: Provider, images: seq<Bytes>)
    ensures Hashes(p, images).Ok? <==> forall i :: 0 <= i < |images| ==> p.perceptualHash(images[i]).Ok?
    ensures Hashes(p, images).Ok? ==>
              |Hashes(p, images).value| == |images|
              && forall i :: 0 <= i < |images| ==> p.perceptualHash(images[i]) == Ok(Hashes(p, images).value[i])
  {
    if images != [] {
      var front := images[..|images| - 1];
      HashesOneByOne(p, front);
      assert forall i :: 0 <= i < |front| ==> front[i] == images[i];
    }
  }

  lemma {:induction false} ImageComesFrom(inputs: seq<EmbedInput>, j: nat)
    requires j < |Images(inputs)|
    ensures exists i :: 0 <= i < |inputs| && inputs[i].modality.Image? && Rank(inputs, i) == j && BytesOf(inputs[i]) == Images(inputs)[j]
  {
    GatheredSizes(inputs);
    PositionAt(inputs, Image, j);
    GatheredAt(inputs, Positions(inputs, Image)[j]);
  }

  lemma {:induction false} TextComesFrom(inputs: seq<EmbedInput>, j: nat)
    requires j < |Texts(inputs)|
    ensures exists i :: 0 <= i < |inputs| && inputs[i].modality.Text? && Rank(inputs, i) == j && TextOf(inputs[i]) == Texts(inputs)[j]
  {
    GatheredSizes(inputs);
    PositionAt(inputs, Text, j);
    GatheredAt(inputs, Positions(inputs, Text)[j]);
  }

  ghost predicate AllAlone(p: Provider, inputs: seq<EmbedInput>, includePhash: bool, image: Bytes -> Result<Vector, EmbedError>, text: string -> Result<Vector, EmbedError>) {
    forall i :: 0 <= i < |inputs| ==> Alone(p, inputs[i], includePhash, image, text).Ok?
  }

  /** Everything the batch asks for succeeds. */
  ghost predicate CallsSucceed(p: Provider, inputs: seq<EmbedInput>, includePhash: bool) {
    ImageVectors(p, inputs).Ok? && TextVectors(p, inputs).Ok? && (includePhash ==> Hashes(p, Images(inputs)).Ok?)
  }

  lemma CallsSucceedTogether(p: Provider, inputs: seq<EmbedInput>, includePhash: bool, image: Bytes -> Result<Vector, EmbedError>, text: string -> Result<Vector, EmbedError>)
    requires Pointwise(p, inputs, image, text)
    ensures CallsSucceed(p, inputs, includePhash) <==> AllAlone(p, inputs, includePhash, image, text)
  {
    HashesOneByOne(p, Images(inputs));
    if AllAlone(p, inputs, includePhash, image, text) {
      forall j | 0 <= j < |Images(inputs)| ensures image(Images(inputs)[j]).Ok? && (includePhash ==> p.perceptualHash(Images(inputs)[j]).Ok?) {
        ImageComesFrom(inputs, j);
      }
      forall j | 0 <= j < |Texts(inputs)| ensures text(Texts(inputs)[j]).Ok? {
        TextComesFrom(inputs, j);
      }
    } else if CallsSucceed(p, inputs, includePhash) {
      forall i | 0 <= i < |inputs| ensures Alone(p, inputs[i], includePhash, image, text).Ok? {
        GatheredAt(inputs, i);
      }
    }
  }

  lemma SlotsWhenAllSucceed(p: Provider, inputs: seq<EmbedInput>, includePhash: bool, image: Bytes -> Result<Vector, EmbedError>, text: string -> Result<Vector, EmbedError>)
    requires inputs != [] && Pointwise(p, inputs, image, text) && CallsSucceed(p, inputs, includePhash)
    ensures var r := Batch(p, inputs, includePhash);
            r.Ok? && |r.value| == |inputs|
            && forall i :: 0 <= i < |inputs| ==> Alone(p, inputs[i], includePhash, image, text) == Ok(r.value[i])
  {
    var images, texts := ImageVectors(p, inputs).value, TextVectors(p, inputs).value;
    assert Take(Images(inputs), |images|) == Images(inputs);
    HashesOneByOne(p, Images(inputs));
    var hashes := if includePhash then Hashes(p, Images(inputs)).value else [];
    var slots := Slots(inputs, images, hashes, texts);
    forall i | 0 <= i < |inputs| ensures slots[i].Some? && Alone(p, inputs[i], includePhash, image, text) == Ok(slots[i].value) {
      GatheredAt(inputs, i);
    }
    PresentOfFull(slots);
  }

  /** With such a provider a non-empty batch of any mix succeeds exactly if every
      input alone does, and then is the pointwise map: every input answered, in the
      caller's order, hashed exactly when an image and asked. */
  lemma BatchIsPointwise(p: Provider, inputs: seq<EmbedInput>, includePhash: bool, image: Bytes -> Result<Vector, EmbedError>, text: string -> Result<Vector, EmbedError>)
    requires inputs != [] && Pointwise(p, inputs, image, text)
    ensures var r := Batch(p, inputs, includePhash);
            && (r.Ok? <==> AllAlone(p, inputs, includePhash, image, text))
            && (r.Ok? ==> |r.value| == |inputs| && forall i :: 0 <= i < |inputs| ==> Alone(p, inputs[i], includePhash, image, text) == Ok(r.value[i]))
  {
    CallsSucceedTogether(p, inputs, includePhash, image, text);
    if CallsSucceed(p, inputs, includePhash) {
      SlotsWhenAllSucceed(p, inputs, includePhash, image, text);
    } else if ImageVectors(p, inputs).Ok? {
      assert Take(Images(inputs), |ImageVectors(p, inputs).value|) == Images(inputs);
    }
  }

  function Min(a: nat, b: nat): nat { if a <= b then a else b }

  /** How many results survive: the zip stops at the shorter list, silently. */
  lemma {:induction false} SurvivorCount(inputs: seq<EmbedInput>, images: seq<Vector>, hashes: seq<string>, texts: seq<Vector>)
    ensures |Present(Slots(inputs, images, hashes, texts))| == Min(|Images(inputs)|, |images|) + Min(|Texts(inputs)|, |texts|)
  {
    if inputs != [] {
      var n := |inputs| - 1;
      var front := inputs[..n];
      SurvivorCount(front, images, hashes, texts);
      GatheredSizes(front);
      SlotsOfFront(inputs, images, hashes, texts);
      PresentGrows(Slots(front, images, hashes, texts), Slot(inputs, images, hashes, texts, n));
    }
  }

  lemma SlotsOfFront(inputs: seq<EmbedInput>, images: seq<Vector>, hashes: seq<string>, texts: seq<Vector>)
    requires inputs != []
    ensures Slots(inputs, images, hashes, texts)
            == Slots(inputs[..|inputs| - 1], images, hashes, texts) + [Slot(inputs, images, hashes, texts, |inputs| - 1)]
  {
    var front := inputs[..|inputs| - 1];
    forall i | 0 <= i < |front| ensures Slot(inputs, images, hashes, texts, i) == Slot(front, images, hashes, texts, i) {
      assert inputs[..i] == front[..i];
    }
  }

  lemma PresentGrows<T>(s: seq<Option<T>>, x: Option<T>)
    ensures |Present(s + [x])| == |Present(s)| + if x.Some? then 1 else 0
  {
    assert (s + [x])[..|s|] == s;
  }

  /** The final filter drops nothing exactly when the provider returned a vector
      for every image and every text. */
  lemma NothingDroppedExactly(p: Provider, inputs: seq<EmbedInput>, includePhash: bool)
    requires Batch(p, inputs, includePhash).Ok?
    ensures |Batch(p, inputs, includePhash).value| == |inputs|
            <==> |ImageVectors(p, inputs).value| >= |Images(inputs)| && |TextVectors(p, inputs).value| >= |Texts(inputs)|
  {
    var images, texts := ImageVectors(p, inputs).value, TextVectors(p, inputs).value;
    var hashes := if includePhash then Hashes(p, Take(Images(inputs), |images|)).value else [];
    SurvivorCount(inputs, images, hashes, texts);
    GatheredSizes(inputs);
  }
}
