/** The appendable data record (AppendableDataRecord.java): a data record whose
    feature slots start as NaN and are filled one by one, in order by `append`
    or at a given index by `set`. The Java subclass relation is modelled by
    composition: the appendable record holds the basic record whose data array
    it fills. */
module AppendableDataRecord {
  import opened Wrappers
  import opened Doubles
  import BasicDataRecord

  type Slot = BasicDataRecord.Slot

  const IntMax: int := 0x7fff_ffff
  const IntMin: int := -0x8000_0000

  /** The index of the first NaN slot, -1 when there is none (nextIndex). */
  function FirstFree(d: seq<Slot>): (r: int)
    ensures -1 <= r < |d|
    ensures r == -1 <==> forall i :: 0 <= i < |d| ==> d[i].Some?
    ensures r >= 0 ==> d[r].None? && forall i :: 0 <= i < r ==> d[i].Some?
    decreases |d|
  {
    if |d| == 0 then -1
    else if d[0].None? then 0
    else
      var r := FirstFree(d[1..]);
      if r == -1 then -1 else r + 1
  }

  /** A value append and set accept: a number, neither NaN nor infinite. */
  predicate Accepted(v: Slot) {
    v.Some? && IsFinite(v.value)
  }

  /** append on the data vector, as a value: the first NaN slot takes the
      value; a NaN or infinite value is refused first, a full vector next. */
  function AppendOf(d: seq<Slot>, v: Slot): (r: Result<seq<Slot>>)
    ensures r.Err? <==> !Accepted(v) || FirstFree(d) == -1
    ensures r.Err? ==> r.error == (if !Accepted(v) then IllegalArgument else IllegalState)
    ensures r.Ok? ==> |r.value| == |d| && r.value[FirstFree(d)] == v
                      && forall i :: 0 <= i < |d| && i != FirstFree(d) ==> r.value[i] == d[i]
  {
    if !Accepted(v) then Err(IllegalArgument)
    else
      var i := FirstFree(d);
      if i == -1 then Err(IllegalState) else Ok(d[i := v])
  }

  /** A run of appends that all succeed. */
  function Appended(d: seq<Slot>, vs: seq<Slot>): Result<seq<Slot>>
    decreases |vs|
  {
    if |vs| == 0 then Ok(d)
    else
      match AppendOf(d, vs[0])
      case Err(e) => Err(e)
      case Ok(d1) => Appended(d1, vs[1..])
  }

  /** The vector of a new record: nFeatures NaN feature slots, then the label. */
  function Fresh(nFeatures: nat, labelId: int): (d: seq<Slot>)
    ensures |d| == nFeatures + 1 && d[nFeatures] == Some(labelId as real)
  {
    seq(nFeatures, _ => None) + [Some(labelId as real)]
  }

  class AppendableDataRecord {
    const record: BasicDataRecord.BasicDataRecord

    /** The appendable record over the given basic record. */
    constructor (record: BasicDataRecord.BasicDataRecord)
      ensures this.record == record
    {
      this.record := record;
    }

    /** `new AppendableDataRecord(labelText, labelId, nFeatures)`: the NaN
        array of nFeatures + 1 slots is made first (a negative length, the
        int sum wrapping around included, throws NegativeArraySizeException),
        then the basic record's checks run, and the label id is written to the
        last slot. */
    static method Create(kind: string, textToId: string -> Option<int>, idToText: int -> Option<string>,
                         labelText: string, labelId: int, nFeatures: int) returns (r: Result<AppendableDataRecord>)
      requires IntMin <= nFeatures <= IntMax
      ensures nFeatures < -1 || nFeatures == IntMax ==> r == Err(NegativeArraySize)
      ensures -1 <= nFeatures < IntMax && (|labelText| == 0 || labelId < 0 || nFeatures == -1) ==> r == Err(IllegalArgument)
      ensures r.Ok? <==> 0 <= nFeatures < IntMax && |labelText| > 0 && labelId >= 0
      ensures r.Ok? ==> fresh(r.value) && fresh(r.value.record) && r.value.record.Initialized()
                        && r.value.record.labelText == Some(labelText) && r.value.record.labelId == labelId
                        && r.value.record.data != null && fresh(r.value.record.data)
                        && r.value.record.data[..] == Fresh(nFeatures, labelId)
    {
      var len := if nFeatures == IntMax then IntMin else nFeatures + 1;
      if len < 0 {
        return Err(NegativeArraySize);
      }
      var nans := new Slot[len](_ => None);
      var base := BasicDataRecord.BasicDataRecord.Create(kind, textToId, idToText, labelText, labelId, nans);
      if base.Err? {
        return Err(base.error);
      }
      nans[nFeatures] := Some(labelId as real);
      assert nans[..] == Fresh(nFeatures, labelId);
      var appendable := new AppendableDataRecord(base.value);
      return Ok(appendable);
    }

    /** nextIndex: the first NaN slot of the whole vector, label slot
        included, or -1. */
    method NextIndex() returns (r: Result<int>)
      ensures record.data == null ==> r == Err(NullPointer)
      ensures record.data != null ==> r == Ok(FirstFree(record.data[..]))
    {
      var data := record.data;
      if data == null {
        return Err(NullPointer);
      }
      for i := 0 to data.Length
        invariant forall j :: 0 <= j < i ==> data[j].Some?
      {
        if data[i].None? {
          FirstFreeOf(data[..], i);
          return Ok(i);
        }
      }
      return Ok(-1);
    }

    /** isFilled: no NaN slot is left. */
    method IsFilled() returns (r: Result<bool>)
      ensures record.data == null ==> r == Err(NullPointer)
      ensures record.data != null ==> r == Ok(forall i :: 0 <= i < record.data.Length ==> record.data[i].Some?)
    {
      var next := NextIndex();
      if next.Err? {
        return Err(next.error);
      }
      return Ok(next.value == -1);
    }

    /** append: the value goes to the first NaN slot. */
    method Append(v: Slot) returns (r: Outcome)
      modifies record.data
      ensures !Accepted(v) ==> r == Fail(IllegalArgument) && (record.data != null ==> unchanged(record.data))
      ensures Accepted(v) && record.data == null ==> r == Fail(NullPointer)
      ensures Accepted(v) && record.data != null ==>
                var a := AppendOf(old(record.data[..]), v);
                && (a.Err? ==> r == Fail(a.error) && unchanged(record.data))
                && (a.Ok? ==> r == Pass && record.data[..] == a.value)
    {
      if !Accepted(v) {
        return Fail(IllegalArgument);
      }
      var next := NextIndex();
      if next.Err? {
        return Fail(next.error);
      }
      if next.value == -1 {
        return Fail(IllegalState);
      }
      record.data[next.value] := v;
      return Pass;
    }

    /** set: the value goes to feature slot i; the label slot is out of reach. */
    method Set(i: int, v: Slot) returns (r: Outcome)
      modifies record.data
      ensures record.data == null ==> r == Fail(NullPointer)
      ensures record.data != null && (i < 0 || i >= record.data.Length - 1) ==> r == Fail(IndexOutOfBounds) && unchanged(record.data)
      ensures record.data != null && 0 <= i < record.data.Length - 1 && !Accepted(v) ==> r == Fail(IllegalArgument) && unchanged(record.data)
      ensures record.data != null && 0 <= i < record.data.Length - 1 && Accepted(v) ==> r == Pass && record.data[..] == old(record.data[..])[i := v]
    {
      var data := record.data;
      if data == null {
        return Fail(NullPointer);
      }
      if i < 0 || i >= data.Length - 1 {
        return Fail(IndexOutOfBounds);
      }
      if !Accepted(v) {
        return Fail(IllegalArgument);
      }
      data[i] := v;
      return Pass;
    }
  }

  /** A NaN slot after only numbers is the first free one. */
  lemma FirstFreeOf(d: seq<Slot>, i: nat)
    requires i < |d| && d[i].None? && forall j :: 0 <= j < i ==> d[j].Some?
    ensures FirstFree(d) == i
  {
  }

  /** A vector whose first features are filled, m NaN slots after them. */
  function Partly(ws: seq<Slot>, m: nat, labelId: int): seq<Slot> {
    ws + seq(m, _ => None) + [Some(labelId as real)]
  }

  /** One append to a partly filled vector fills the next feature slot. */
  lemma AppendStep(ws: seq<Slot>, m: nat, labelId: int, v: Slot)
    requires forall k :: 0 <= k < |ws| ==> ws[k].Some?
    requires m > 0 && Accepted(v)
    ensures AppendOf(Partly(ws, m, labelId), v) == Ok(Partly(ws + [v], m - 1, labelId))
  {
    var d := Partly(ws, m, labelId);
    FirstFreeOf(d, |ws|);
    assert d[|ws| := v] == Partly(ws + [v], m - 1, labelId);
  }

  /** Appending to a vector whose features are filled up to some point. */
  lemma {:induction false} AppendedFills(ws: seq<Slot>, m: nat, labelId: int, vs: seq<Slot>)
    requires forall k :: 0 <= k < |ws| ==> ws[k].Some?
    requires |vs| == m && forall k :: 0 <= k < |vs| ==> Accepted(vs[k])
    ensures Appended(Partly(ws, m, labelId), vs) == Ok(ws + vs + [Some(labelId as real)])
    decreases m
  {
    var d := Partly(ws, m, labelId);
    if m == 0 {
      assert vs == [];
      assert d == ws + vs + [Some(labelId as real)];
    } else {
      var v, rest, ws' := vs[0], vs[1..], ws + [vs[0]];
      var d1 := Partly(ws', m - 1, labelId);
      AppendStep(ws, m, labelId, v);
      AppendedCons(d, v, rest, d1);
      assert vs == [v] + rest;
      AppendedFills(ws', m - 1, labelId, rest);
      assert ws' + rest == ws + vs;
    }
  }

  /** A run of appends whose first one succeeds goes on from that append's vector. */
  lemma AppendedCons(d: seq<Slot>, v: Slot, rest: seq<Slot>, d1: seq<Slot>)
    requires AppendOf(d, v) == Ok(d1)
    ensures Appended(d, [v] + rest) == Appended(d1, rest)
  {
    assert ([v] + rest)[1..] == rest;
  }

  /** Appending nFeatures accepted values to a new record fills it with those
      values followed by the label, and one more append is refused with
      IllegalStateException. */
  lemma FillNew(nFeatures: nat, labelId: int, vs: seq<Slot>, extra: Slot)
    requires |vs| == nFeatures && forall k :: 0 <= k < |vs| ==> Accepted(vs[k])
    requires Accepted(extra)
    ensures Appended(Fresh(nFeatures, labelId), vs) == Ok(vs + [Some(labelId as real)])
    ensures FirstFree(vs + [Some(labelId as real)]) == -1
    ensures AppendOf(vs + [Some(labelId as real)], extra) == Err(IllegalState)
  {
    assert Fresh(nFeatures, labelId) == Partly([], nFeatures, labelId);
    AppendedFills([], nFeatures, labelId, vs);
    assert [] + vs == vs;
  }

  /** set never reaches the label slot, so a new record keeps its label id
      whatever is set. */
  lemma SetKeepsLabel(d: seq<Slot>, i: int, v: Slot)
    requires 0 <= i < |d| - 1
    ensures d[i := v][|d| - 1] == d[|d| - 1]
  {
  }
}
