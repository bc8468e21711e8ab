/**
 Lanes and the scan-tag index of the in-memory indexer, against the linear scan of the
 persistent one.
 */
module Lanes {
  import opened Bytes
  import opened Core
  import opened Sorting
  import opened Ledger

  datatype Lane = Lane(
    chain: ChainId, covenant: Bytes32, asset: Bytes32, id: Bytes32, epoch: u64, tag: Option<Bytes32>, listed: bool,
    digest: Bytes32, lastDaa: u64)

  datatype LaneIndex = LaneIndex(lanes: map<Bytes32, Lane>, tags: map<Bytes32, Bytes32>)

  // `validate_indexed_lane`
  function ValidateLane(e: Entry, l: Lane): Outcome<IndexerError> {
    if l.id == ZERO32 then Fail(LaneInvariant)
    else if l.digest == ZERO32 then Fail(LaneInvariant)
    else if l.tag == Some(ZERO32) then Fail(LaneInvariant)
    else if l.chain != e.chain then Fail(ChainMismatch)
    else if l.covenant != e.covenant then Fail(LaneInvariant)
    else if l.asset != e.latest.asset then Fail(LaneInvariant)
    else if l.digest != e.latest.digest then Fail(LaneInvariant)
    else if l.lastDaa != e.lastDaa then Fail(LaneInvariant)
    else Pass
  }

  function PreviousTag(x: LaneIndex, id: Bytes32): Option<Bytes32> {
    if id in x.lanes then x.lanes[id].tag else None
  }

  // `register_lane` once the lane is validated: the lane replaces the one with its id, the
  // replaced lane's tag is dropped, the new tag is set.
  function Register(x: LaneIndex, l: Lane): LaneIndex {
    var dropped := match PreviousTag(x, l.id) case Some(t) => x.tags - {t} case None => x.tags;
    LaneIndex(x.lanes[l.id := l], match l.tag case Some(t) => dropped[t := l.id] case None => dropped)
  }

  // `lane_by_scan_tag` of the in-memory indexer.
  function ByTag(x: LaneIndex, t: Bytes32): Option<Lane> {
    if t in x.tags && x.tags[t] in x.lanes then Some(x.lanes[x.tags[t]]) else None
  }

  // ---- the linear scan ----

  predicate Holds(lanes: map<Bytes32, Lane>, id: Bytes32, t: Bytes32) { id in lanes && lanes[id].tag == Some(t) }

  // What a scan in the order of the lane ids returns: the first lane holding the tag.
  ghost predicate IsScan(lanes: map<Bytes32, Lane>, t: Bytes32, r: Option<Lane>) {
    match r
    case None => forall id: Bytes32 :: !Holds(lanes, id, t)
    case Some(l) =>
      && Holds(lanes, l.id, t) && lanes[l.id] == l
      && forall id: Bytes32 :: Holds(lanes, id, t) && id != l.id ==> LexLess(l.id, id)
  }

  // `lane_by_scan_tag` of the persistent indexer, whose tree iterates in key order.
  method ScanForTag(lanes: map<Bytes32, Lane>, order: seq<Bytes32>, t: Bytes32) returns (r: Option<Lane>)
    requires forall id :: id in lanes <==> id in order
    requires forall i, j :: 0 <= i < j < |order| ==> LexLess(order[i], order[j])
    requires forall id :: id in lanes ==> lanes[id].id == id
    ensures IsScan(lanes, t, r)
  {
    for i := 0 to |order|
      invariant forall j :: 0 <= j < i ==> !Holds(lanes, order[j], t)
    {
      var lane := lanes[order[i]];
      if lane.tag == Some(t) {
        forall id: Bytes32 | Holds(lanes, id, t) && id != lane.id ensures LexLess(lane.id, id) {
          var j :| 0 <= j < |order| && order[j] == id;
          assert i < j;
        }
        return Some(lane);
      }
    }
    forall id: Bytes32 ensures !Holds(lanes, id, t) {
      if id in lanes { var j :| 0 <= j < |order| && order[j] == id; }
    }
    return None;
  }

  // ---- what holds after any registrations ----

  predicate KeyedAt(x: LaneIndex, id: Bytes32) { id in x.lanes ==> x.lanes[id].id == id }

  predicate HonestAt(x: LaneIndex, t: Bytes32) { t in x.tags ==> Holds(x.lanes, x.tags[t], t) }

  ghost predicate Honest(x: LaneIndex) {
    (forall id: Bytes32 :: KeyedAt(x, id)) && (forall t: Bytes32 :: HonestAt(x, t))
  }

  function RegisterAll(x: LaneIndex, ls: seq<Lane>): LaneIndex
    decreases |ls|
  {
    if ls == [] then x else Register(RegisterAll(x, ls[..|ls| - 1]), Last(ls))
  }

  const EMPTY := LaneIndex(map[], map[])

  lemma RegisterHonest(x: LaneIndex, l: Lane)
    requires Honest(x)
    ensures Honest(Register(x, l))
  {
    var y := Register(x, l);
    forall id: Bytes32 ensures KeyedAt(y, id) { assert KeyedAt(x, id); }
    forall t: Bytes32 ensures HonestAt(y, t) { assert HonestAt(x, t); }
  }

  // After any registrations at all, a lane found by tag is registered and holds the tag.
  lemma {:induction false} IndexNeverLies(ls: seq<Lane>)
    ensures Honest(RegisterAll(EMPTY, ls))
    decreases |ls|
  {
    if ls != [] {
      IndexNeverLies(ls[..|ls| - 1]);
      RegisterHonest(RegisterAll(EMPTY, ls[..|ls| - 1]), Last(ls));
    }
  }

  // ---- when the index is the scan ----

  ghost predicate ExactAt(x: LaneIndex, t: Bytes32) { IsScan(x.lanes, t, ByTag(x, t)) }

  ghost predicate Exact(x: LaneIndex) { forall t: Bytes32 :: ExactAt(x, t) }

  // No other lane is left holding the tag that the replaced lane gives up.
  ghost predicate GivesUpCleanly(x: LaneIndex, l: Lane) {
    match PreviousTag(x, l.id)
    case None => true
    case Some(p) => l.tag == Some(p) || forall id: Bytes32 :: Holds(x.lanes, id, p) ==> id == l.id
  }

  // No lane with a smaller id holds the new tag.
  ghost predicate ComesFirst(x: LaneIndex, l: Lane) {
    match l.tag
    case None => true
    case Some(t) => forall id: Bytes32 :: Holds(x.lanes, id, t) && id != l.id ==> LexLess(l.id, id)
  }

  lemma RegisterOther(x: LaneIndex, l: Lane, t: Bytes32)
    requires Honest(x) && ExactAt(x, t)
    requires l.tag != Some(t) && PreviousTag(x, l.id) != Some(t)
    ensures ExactAt(Register(x, l), t)
  {
    var y := Register(x, l);
    assert HonestAt(x, t);
    forall id: Bytes32 ensures Holds(y.lanes, id, t) == Holds(x.lanes, id, t) {}
    if ByTag(x, t).Some? { assert x.tags[t] != l.id; }
  }

  lemma RegisterNew(x: LaneIndex, l: Lane, t: Bytes32)
    requires l.tag == Some(t)
    ensures ExactAt(Register(x, l), t) <==> ComesFirst(x, l)
  {
    var y := Register(x, l);
    forall id: Bytes32 | id != l.id ensures Holds(y.lanes, id, t) == Holds(x.lanes, id, t) {}
    assert ByTag(y, t) == Some(l);
  }

  lemma RegisterOld(x: LaneIndex, l: Lane, p: Bytes32)
    requires PreviousTag(x, l.id) == Some(p) && l.tag != Some(p)
    ensures ExactAt(Register(x, l), p) <==> GivesUpCleanly(x, l)
  {
    var y := Register(x, l);
    assert ByTag(y, p) == None;
    assert !Holds(y.lanes, l.id, p);
    forall id: Bytes32 | id != l.id ensures Holds(y.lanes, id, p) == Holds(x.lanes, id, p) {}
    if ExactAt(y, p) {
      forall id: Bytes32 | Holds(x.lanes, id, p) ensures id == l.id { assert !Holds(y.lanes, id, p); }
    }
  }

  // From an exact index, one registration keeps it exact precisely under these two
  // conditions, both of which can be checked before registering.
  lemma RegisterExactIff(x: LaneIndex, l: Lane)
    requires Honest(x) && Exact(x)
    ensures Exact(Register(x, l)) <==> GivesUpCleanly(x, l) && ComesFirst(x, l)
  {
    var y := Register(x, l);
    var p := PreviousTag(x, l.id);
    if l.tag.Some? { RegisterNew(x, l, l.tag.value); }
    if p.Some? && p != l.tag { RegisterOld(x, l, p.value); }
    if Exact(y) {
      if l.tag.Some? { assert ExactAt(y, l.tag.value); }
      if p.Some? { assert ExactAt(y, p.value); }
    }
    if GivesUpCleanly(x, l) && ComesFirst(x, l) {
      forall t: Bytes32 ensures ExactAt(y, t) {
        assert ExactAt(x, t);
        if l.tag != Some(t) && p != Some(t) { RegisterOther(x, l, t); }
      }
    }
  }

  ghost predicate ExactAfter(ls: seq<Lane>, n: nat) { n <= |ls| ==> Exact(RegisterAll(EMPTY, ls[..n])) }

  ghost predicate CleanAt(ls: seq<Lane>, n: nat) {
    n < |ls| ==> var x := RegisterAll(EMPTY, ls[..n]);
                 GivesUpCleanly(x, ls[n]) && ComesFirst(x, ls[n])
  }

  // Over whole runs: the index is exact after every registration precisely when every
  // registration meets the two conditions where it is made.
  lemma {:induction false} AlwaysExactIff(ls: seq<Lane>, m: nat)
    requires m <= |ls|
    ensures (forall n: nat :: n <= m ==> ExactAfter(ls, n)) <==> (forall n: nat :: n < m ==> CleanAt(ls, n))
  {
    if m == 0 {
      assert ls[..0] == [];
      forall t: Bytes32 ensures ExactAt(EMPTY, t) {}
      assert ExactAfter(ls, 0);
    } else {
      AlwaysExactIff(ls, m - 1);
      var x := RegisterAll(EMPTY, ls[..m - 1]);
      assert ls[..m][..m - 1] == ls[..m - 1] && Last(ls[..m]) == ls[m - 1];
      IndexNeverLies(ls[..m - 1]);
      if forall n: nat :: n <= m - 1 ==> ExactAfter(ls, n) {
        assert ExactAfter(ls, m - 1);
        RegisterExactIff(x, ls[m - 1]);
        assert ExactAfter(ls, m) <==> CleanAt(ls, m - 1);
      }
    }
  }

  // No two lanes hold one tag.
  ghost predicate UniqueTags(lanes: map<Bytes32, Lane>) {
    forall a: Bytes32, b: Bytes32, t: Bytes32 :: Holds(lanes, a, t) && Holds(lanes, b, t) ==> a == b
  }

  ghost predicate UniqueAt(ls: seq<Lane>, n: nat) { n <= |ls| ==> UniqueTags(RegisterAll(EMPTY, ls[..n]).lanes) }

  // Over any registrations during which no two lanes hold the same tag at once, looking a
  // tag up in the index is scanning all lanes for it.
  lemma {:induction false} IndexIsScan(ls: seq<Lane>)
    requires forall n: nat :: UniqueAt(ls, n)
    ensures Exact(RegisterAll(EMPTY, ls))
    decreases |ls|
  {
    if ls == [] {
      forall t: Bytes32 ensures ExactAt(EMPTY, t) {}
    } else {
      var n := |ls| - 1;
      var x, l := RegisterAll(EMPTY, ls[..n]), Last(ls);
      forall k: nat ensures UniqueAt(ls[..n], k) {
        assert UniqueAt(ls, k);
        if k <= n { assert ls[..n][..k] == ls[..k]; }
      }
      IndexIsScan(ls[..n]);
      IndexNeverLies(ls[..n]);
      assert UniqueAt(ls, n) && UniqueAt(ls, n + 1);
      assert ls[..n + 1] == ls;
      UniqueKeeps(x, l);
      RegisterExactIff(x, l);
    }
  }

  lemma UniqueKeeps(x: LaneIndex, l: Lane)
    requires UniqueTags(x.lanes) && UniqueTags(Register(x, l).lanes)
    ensures GivesUpCleanly(x, l) && ComesFirst(x, l)
  {
    var y := Register(x, l);
    if l.tag.Some? {
      forall id: Bytes32 | Holds(x.lanes, id, l.tag.value) ensures id == l.id {
        assert Holds(y.lanes, id, l.tag.value) && Holds(y.lanes, l.id, l.tag.value);
      }
    }
    var p := PreviousTag(x, l.id);
    if p.Some? { assert Holds(x.lanes, l.id, p.value); }
  }

  // Without that, it need not be. On any entry with a non-zero digest there are lanes that
  // pass validation such that two of them take one tag, the later one gives it up, and the
  // index has lost the tag while the earlier lane still holds it.
  lemma SharedTagIsLost(e: Entry) returns (a: Lane, b: Lane, t: Bytes32)
    requires e.latest.digest != ZERO32
    ensures ValidateLane(e, a).Pass? && ValidateLane(e, b).Pass? && ValidateLane(e, b.(tag := None)).Pass?
    ensures var x := RegisterAll(EMPTY, [a, b, b.(tag := None)]);
            ByTag(x, t) == None && Holds(x.lanes, a.id, t) && !Exact(x)
  {
    t := Fill(1);
    FillDiffers(1, 2);
    FillDiffers(2, 3);
    a := Lane(e.chain, e.covenant, e.latest.asset, Fill(2), 0, Some(t), false, e.latest.digest, e.lastDaa);
    b := a.(id := Fill(3));
    FillDiffers(3, 1);
    LaterLaneTakesTheTag(a, b, t);
  }

  lemma LaterLaneTakesTheTag(a: Lane, b: Lane, t: Bytes32)
    requires a.id != b.id && a.tag == Some(t) && b.tag == Some(t)
    ensures var x := RegisterAll(EMPTY, [a, b, b.(tag := None)]);
            ByTag(x, t) == None && Holds(x.lanes, a.id, t) && !Exact(x)
  {
    var c := b.(tag := None);
    assert [a, b, c][..2] == [a, b] && [a, b][..1] == [a] && [a][..0] == [];
    var x1 := Register(EMPTY, a);
    var x2 := Register(x1, b);
    assert RegisterAll(EMPTY, [a]) == x1 && RegisterAll(EMPTY, [a, b]) == x2;
    var x := Register(x2, c);
    assert RegisterAll(EMPTY, [a, b, c]) == x;
    assert ByTag(x, t) == None && Holds(x.lanes, a.id, t);
    assert !ExactAt(x, t);
  }
}
