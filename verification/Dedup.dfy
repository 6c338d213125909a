/** Near-duplicate detection over the hashes of a tenant's indexed items. */
module Dedup {
  import opened Common
  import opened PerceptualHash

  /** An `int(s, 16)` that was handed something that is not hexadecimal. */
  datatype HexError = NotHexadecimal

  type Entry = (ItemId, string)

  /** A listed item that takes part in the comparison: blank hashes are skipped. */
  predicate Compared(e: Entry) { e.1 != "" }

  /** The scan from position `i` on, with the best match found so far. */
  function Scan(phash: string, existing: seq<Entry>, threshold: int, i: nat,
                best: Option<ItemId>, bestDistance: int): Result<Option<ItemId>, HexError>
    requires i <= |existing|
    decreases |existing| - i
  {
    if i == |existing| then Ok(best)
    else if !Compared(existing[i]) then Scan(phash, existing, threshold, i + 1, best, bestDistance)
    else match HammingDistance(phash, existing[i].1)
      case None => Err(NotHexadecimal)
      case Some(d) =>
        if d <= threshold && d < bestDistance then
          if d == 0 then Ok(Some(existing[i].0))
          else Scan(phash, existing, threshold, i + 1, Some(existing[i].0), d)
        else Scan(phash, existing, threshold, i + 1, best, bestDistance)
  }

  function FindDuplicate(phash: string, existing: seq<Entry>, threshold: int): Result<Option<ItemId>, HexError> {
    Scan(phash, existing, threshold, 0, None, threshold + 1)
  }

  /** `find_duplicate` as the loop it is. */
  method FindClosest(phash: string, existing: seq<Entry>, threshold: int)
    returns (r: Result<Option<ItemId>, HexError>)
    ensures r == FindDuplicate(phash, existing, threshold)
  {
    var bestId: Option<ItemId> := None;
    var bestDistance := threshold + 1;
    for i := 0 to |existing|
      invariant FindDuplicate(phash, existing, threshold) == Scan(phash, existing, threshold, i, bestId, bestDistance)
    {
      if existing[i].1 == "" {
        continue;
      }
      var distance := HammingDistance(phash, existing[i].1);
      if distance.None? {
        return Err(NotHexadecimal);
      }
      if distance.value <= threshold && distance.value < bestDistance {
        bestId, bestDistance := Some(existing[i].0), distance.value;
        if bestDistance == 0 {
          break;
        }
      }
    }
    r := Ok(bestId);
  }

  /** The two hashes can be compared and differ in more than `threshold` bits. */
  predicate FarApart(a: string, b: string, threshold: int) {
    HammingDistance(a, b).Some? && HammingDistance(a, b).value > threshold
  }

  predicate Within(a: string, b: string, threshold: int) {
    HammingDistance(a, b).Some? && HammingDistance(a, b).value <= threshold
  }

  /** Among the entries from `i` on, `k` is the first at the smallest distance
      below `bound`. A distance of zero ends the search, so nothing is said
      about the entries behind it. */
  ghost predicate FirstClosest(phash: string, existing: seq<Entry>, bound: int, i: nat, k: nat) {
    && i <= k < |existing| && Compared(existing[k]) && Within(phash, existing[k].1, bound - 1)
    && var d := HammingDistance(phash, existing[k].1).value;
    && (forall j :: i <= j < k && Compared(existing[j]) ==> FarApart(phash, existing[j].1, d))
    && (d > 0 ==> forall j :: k < j < |existing| && Compared(existing[j]) ==> FarApart(phash, existing[j].1, d - 1))
  }

  ghost predicate AllFarApart(phash: string, existing: seq<Entry>, threshold: int, i: nat) {
    forall j :: i <= j < |existing| && Compared(existing[j]) ==> FarApart(phash, existing[j].1, threshold)
  }

  ghost predicate SomeIncomparable(phash: string, existing: seq<Entry>, i: nat) {
    exists j :: i <= j < |existing| && Compared(existing[j]) && HammingDistance(phash, existing[j].1).None?
  }

  /** Entry `j` cannot be compared, and no exact match before it ends the scan. */
  ghost predicate ReachesIncomparable(phash: string, existing: seq<Entry>, threshold: int, i: nat) {
    exists j :: i <= j < |existing| && StopsAt(phash, existing, threshold, i, j)
  }

  ghost predicate StopsAt(phash: string, existing: seq<Entry>, threshold: int, i: nat, j: nat)
    requires j < |existing|
  {
    && Compared(existing[j]) && HammingDistance(phash, existing[j].1).None?
    && forall m :: i <= m < j && Compared(existing[m]) ==> threshold < 0 || HammingDistance(phash, existing[m].1) != Some(0)
  }

  /** What the scan raises when the entries before `i` are dealt with. */
  lemma {:induction false} ScanError(phash: string, existing: seq<Entry>, threshold: int, i: nat,
                                     best: Option<ItemId>, bestDistance: int)
    requires i <= |existing|
    requires best.None? ==> bestDistance == threshold + 1
    requires best.Some? ==> 0 < bestDistance <= threshold
    ensures Scan(phash, existing, threshold, i, best, bestDistance).Err? <==> ReachesIncomparable(phash, existing, threshold, i)
    decreases |existing| - i
  {
    if i < |existing| {
      var d := HammingDistance(phash, existing[i].1);
      if !Compared(existing[i]) || (d.Some? && !(d.value <= threshold && d.value < bestDistance)) {
        ScanError(phash, existing, threshold, i + 1, best, bestDistance);
        ErrorMovesOn(phash, existing, threshold, i);
      } else if d.None? {
        assert StopsAt(phash, existing, threshold, i, i);
      } else if d.value > 0 {
        ScanError(phash, existing, threshold, i + 1, Some(existing[i].0), d.value);
        ErrorMovesOn(phash, existing, threshold, i);
      }
    }
  }

  /** An entry that neither fails nor matches exactly can be skipped. */
  lemma ErrorMovesOn(phash: string, existing: seq<Entry>, threshold: int, i: nat)
    requires i < |existing|
    requires Compared(existing[i]) ==> HammingDistance(phash, existing[i].1).Some? && (threshold < 0 || HammingDistance(phash, existing[i].1) != Some(0))
    ensures ReachesIncomparable(phash, existing, threshold, i) <==> ReachesIncomparable(phash, existing, threshold, i + 1)
  {
    if j :| i <= j < |existing| && StopsAt(phash, existing, threshold, i, j) {
      assert StopsAt(phash, existing, threshold, i + 1, j);
    }
    var n := i + 1;
    if j :| n <= j < |existing| && StopsAt(phash, existing, threshold, n, j) {
      assert StopsAt(phash, existing, threshold, i, j);
    }
  }

  /** An entry farther away than the closest one may be put in front. */
  lemma ClosestMovesOn(phash: string, existing: seq<Entry>, inner: int, bound: int, i: nat, k: nat)
    requires FirstClosest(phash, existing, inner, i + 1, k) && inner <= bound && i < |existing|
    requires Compared(existing[i]) ==> FarApart(phash, existing[i].1, inner - 1)
    ensures FirstClosest(phash, existing, bound, i, k)
  {
  }

  lemma IsClosest(phash: string, existing: seq<Entry>, bound: int, i: nat)
    requires i < |existing| && Compared(existing[i]) && Within(phash, existing[i].1, bound - 1)
    requires var d := HammingDistance(phash, existing[i].1).value; d > 0 ==> AllFarApart(phash, existing, d - 1, i + 1)
    ensures FirstClosest(phash, existing, bound, i, i)
  {
  }

  /** What the scan finds when the entries before `i` are dealt with; `k` is the
      improving entry, or -1 when the best so far survives. */
  lemma {:induction false} ScanMeaning(phash: string, existing: seq<Entry>, threshold: int, i: nat,
                                       best: Option<ItemId>, bestDistance: int) returns (k: int)
    requires i <= |existing|
    requires best.None? ==> bestDistance == threshold + 1
    requires best.Some? ==> 0 < bestDistance <= threshold
    ensures match Scan(phash, existing, threshold, i, best, bestDistance)
            case Err(_) => true
            case Ok(found) =>
              if k < 0 then found == best && AllFarApart(phash, existing, bestDistance - 1, i)
              else FirstClosest(phash, existing, bestDistance, i, k) && found == Some(existing[k].0)
    decreases |existing| - i
  {
    k := -1;
    if i < |existing| && Scan(phash, existing, threshold, i, best, bestDistance).Ok? {
      var d := HammingDistance(phash, existing[i].1);
      if !Compared(existing[i]) || d.value >= bestDistance || d.value > threshold {
        k := ScanMeaning(phash, existing, threshold, i + 1, best, bestDistance);
        if k >= 0 { ClosestMovesOn(phash, existing, bestDistance, bestDistance, i, k); }
      } else {
        if d.value > 0 {
          k := ScanMeaning(phash, existing, threshold, i + 1, Some(existing[i].0), d.value);
        }
        if k >= 0 {
          ClosestMovesOn(phash, existing, d.value, bestDistance, i, k);
        } else {
          IsClosest(phash, existing, bestDistance, i);
          k := i;
        }
      }
    }
  }

  /** `find_duplicate` returns the closest listed item within the threshold, ties
      going to the earlier one; None exactly when every compared item is more
      than `threshold` bits away; and it raises exactly when it comes to a hash
      that is not hex before an exact match. */
  lemma FindDuplicateMeaning(phash: string, existing: seq<Entry>, threshold: int) returns (k: int)
    ensures FindDuplicate(phash, existing, threshold) == Ok(None) <==> AllFarApart(phash, existing, threshold, 0)
    ensures FindDuplicate(phash, existing, threshold).Err? <==> ReachesIncomparable(phash, existing, threshold, 0)
    ensures FindDuplicate(phash, existing, threshold).Err? ==> SomeIncomparable(phash, existing, 0)
    ensures forall id :: FindDuplicate(phash, existing, threshold) == Ok(Some(id)) ==>
              0 <= k && FirstClosest(phash, existing, threshold + 1, 0, k) && id == existing[k].0
  {
    ScanError(phash, existing, threshold, 0, None, threshold + 1);
    k := ScanMeaning(phash, existing, threshold, 0, None, threshold + 1);
  }

  lemma {:induction false} ShiftedScan(phash: string, s: seq<Entry>, t: seq<Entry>, threshold: int, i: nat, j: nat, best: Option<ItemId>, bestDistance: int)
    requires i <= |s| && j <= |t| && s[i..] == t[j..]
    ensures Scan(phash, s, threshold, i, best, bestDistance) == Scan(phash, t, threshold, j, best, bestDistance)
    decreases |s| - i
  {
    assert |s| - i == |s[i..]| == |t[j..]| == |t| - j;
    if i < |s| {
      assert s[i] == s[i..][0] == t[j..][0] == t[j];
      assert s[i + 1..] == s[i..][1..] && t[j + 1..] == t[j..][1..];
      ShiftedScan(phash, s, t, threshold, i + 1, j + 1, best, bestDistance);
      if HammingDistance(phash, s[i].1).Some? {
        ShiftedScan(phash, s, t, threshold, i + 1, j + 1, Some(s[i].0), HammingDistance(phash, s[i].1).value);
      }
    }
  }

  lemma {:induction false} ScanPast(phash: string, s: seq<Entry>, t: seq<Entry>, k: nat, threshold: int, i: nat, best: Option<ItemId>, bestDistance: int)
    requires i <= k < |s| && s[k].1 == "" && t == s[..k] + s[k + 1..]
    ensures Scan(phash, s, threshold, i, best, bestDistance) == Scan(phash, t, threshold, i, best, bestDistance)
    decreases k - i
  {
    if i == k {
      assert s[k + 1..] == t[k..];
      ShiftedScan(phash, s, t, threshold, k + 1, k, best, bestDistance);
    } else {
      assert s[i] == t[i];
      ScanPast(phash, s, t, k, threshold, i + 1, best, bestDistance);
      if HammingDistance(phash, s[i].1).Some? {
        ScanPast(phash, s, t, k, threshold, i + 1, Some(s[i].0), HammingDistance(phash, s[i].1).value);
      }
    }
  }

  /** An item with a blank hash is passed over: with or without it in the listing,
      the answer is the same. */
  lemma BlankIsPassedOver(phash: string, existing: seq<Entry>, threshold: int, k: nat)
    requires k < |existing| && existing[k].1 == ""
    ensures FindDuplicate(phash, existing, threshold) == FindDuplicate(phash, existing[..k] + existing[k + 1..], threshold)
  {
    ScanPast(phash, existing, existing[..k] + existing[k + 1..], k, threshold, 0, None, threshold + 1);
  }
}
