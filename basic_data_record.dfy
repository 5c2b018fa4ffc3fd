/** The data record of the library (BasicDataRecord.java): a label text, a label
    id and a data vector whose last slot holds the label id; a record is either
    initialized (all three set) or waits for loadFromString. A slot of the data
    vector is a Java double: `None` is NaN, `Some(x)` a number, which is
    infinite when x is outside the finite range. */
module BasicDataRecord {
  import opened Wrappers
  import opened Doubles

  type Slot = Option<real>

  // ---------------------------------------------------------------------------
  // Text: comma joins and String.split(",").

  /** The tokens joined with ',' between them, none after the last. */
  function Join(ts: seq<string>): string
    requires |ts| >= 1
    decreases |ts|
  {
    if |ts| == 1 then ts[0] else ts[0] + "," + Join(ts[1..])
  }

  /** The StringBuilder of saveToString: every token followed by ','. */
  function Trailing(ts: seq<string>): string
    decreases |ts|
  {
    if |ts| == 0 then "" else Trailing(ts[..|ts| - 1]) + ts[|ts| - 1] + ","
  }

  /** The pieces between the commas of s, empty ones included. */
  function Pieces(s: string): (r: seq<string>)
    ensures |r| >= 1
    decreases |s|
  {
    if ',' !in s then [s]
    else
      var i := FirstComma(s);
      [s[..i]] + Pieces(s[i + 1..])
  }

  /** The index of the first ',' in s. */
  function FirstComma(s: string): (i: nat)
    requires ',' in s
    ensures i < |s| && s[i] == ',' && ',' !in s[..i]
  {
    if s[0] == ',' then 0
    else
      assert ',' in s[1..] by {
        var k :| 0 <= k < |s| && s[k] == ',';
        assert s[1..][k - 1] == ',';
      }
      var j := FirstComma(s[1..]);
      assert s[..j + 1] == [s[0]] + s[1..][..j];
      j + 1
  }

  /** The pieces without the empty ones at the end. */
  function DropTrailingEmpty(ps: seq<string>): seq<string>
    decreases |ps|
  {
    if |ps| > 0 && ps[|ps| - 1] == "" then DropTrailingEmpty(ps[..|ps| - 1]) else ps
  }

  /** Java's `s.split(",")`: the input itself when it holds no comma, otherwise
      the pieces with trailing empty strings removed. */
  function Split(s: string): seq<string> {
    if ',' !in s then [s] else DropTrailingEmpty(Pieces(s))
  }

  /** Every slot printed by `show` (Double.toString). */
  function Shown(d: seq<Slot>, show: Slot -> string): (ts: seq<string>)
    ensures |ts| == |d| && forall i :: 0 <= i < |d| ==> ts[i] == show(d[i])
  {
    seq(|d|, i requires 0 <= i < |d| => show(d[i]))
  }

  /** A token that printing a number may produce: not empty, no comma in it. */
  predicate Token(t: string) {
    |t| >= 1 && ',' !in t
  }

  // ---------------------------------------------------------------------------
  // Loading a record from text, as a value.

  /** The state of a record after loadFromString. */
  datatype Loaded = Loaded(data: Option<seq<Slot>>, labelId: int, labelText: Option<string>, outcome: Outcome)

  /** The feature loop of loadFromString over the first n tokens: the slots it
      has parsed, and whether it parsed them all. */
  function ParseFeatures(ts: seq<string>, parse: string -> Option<Slot>, n: nat): (r: (seq<Slot>, bool))
    requires n <= |ts|
    ensures |r.0| <= n && (r.1 ==> |r.0| == n)
  {
    if n == 0 then ([], true)
    else
      var (ps, ok) := ParseFeatures(ts, parse, n - 1);
      if !ok then (ps, false)
      else
        match parse(ts[n - 1])
        case None => (ps, false)
        case Some(x) => (ps + [x], true)
  }

  /** `labelIdD % 1.0 != 0.0` is false: a finite whole number (NaN and the
      infinities leave a NaN remainder). */
  predicate WholeSlot(v: Slot) {
    v.Some? && IsFinite(v.value) && IsWhole(v.value)
  }

  function Zeros(n: nat): seq<Slot> {
    seq(n, _ => Some(0.0))
  }

  /** The label of loadFromString from its last token: a number must be a
      finite whole non-negative value (`labelIdD % 1.0 != 0.0` holds for NaN
      and the infinities); a token that is no number goes to `textToId`. The
      result is the label slot and the label id, or None for an
      IllegalArgumentException. */
  function LabelOf(t: string, parse: string -> Option<Slot>, textToId: string -> Option<int>): (r: Option<(Slot, int)>)
    ensures r.None? <==>
      ((parse(t).Some? && (!WholeSlot(parse(t).value) || parse(t).value.value < 0.0))
       || (parse(t).None? && textToId(t).None?))
    ensures r.Some? ==> r.value.0 == Some(r.value.1 as real)
    ensures r.Some? && parse(t).Some? ==> r.value.0 == parse(t).value && r.value.1 >= 0
    ensures r.Some? && parse(t).None? ==> textToId(t) == Some(r.value.1)
  {
    match parse(t)
    case Some(v) =>
      if !WholeSlot(v) || v.value < 0.0 then None else Some((v, Trunc(v.value)))
    case None =>
      match textToId(t)
      case None => None
      case Some(id) => Some((Some(id as real), id))
  }

  /** loadFromString on an uninitialized record, as a value. `parse` is
      Double.parseDouble (None for a NumberFormatException), `textToId` is
      labelTextToLabelId (None for an IllegalArgumentException) and `idToText`
      is labelIdToLabelText. The data array is allocated before the features
      are parsed, so a failure after the length check leaves it behind. */
  function LoadOf(s: string, parse: string -> Option<Slot>, textToId: string -> Option<int>, idToText: int -> Option<string>): Loaded {
    var ts := Split(s);
    var len := |ts|;
    if len < 2 then Loaded(None, -1, None, Fail(IllegalArgument))
    else
      var (ps, ok) := ParseFeatures(ts, parse, len - 1);
      if !ok then Loaded(Some(ps + Zeros(len - |ps|)), -1, None, Fail(IllegalArgument))
      else
        match LabelOf(ts[len - 1], parse, textToId)
        case None => Loaded(Some(ps + [Some(0.0)]), -1, None, Fail(IllegalArgument))
        case Some((v, id)) => Loaded(Some(ps + [v]), id, idToText(id), Pass)
  }

  /** Java's `==` on two doubles: NaN equals nothing, itself included, and
      all values beyond the finite range on one side stand for one infinity. */
  predicate SlotEquals(a: Slot, b: Slot) {
    a.Some? && b.Some? &&
    (a.value == b.value || (!IsFinite(a.value) && !IsFinite(b.value) && (a.value > 0.0 <==> b.value > 0.0)))
  }

  /** The comparison loop of equals. */
  predicate SameData(a: seq<Slot>, b: seq<Slot>) {
    |a| == |b| && forall i :: 0 <= i < |a| ==> SlotEquals(a[i], b[i])
  }

  /** The feature loop of loadFromString: parses the first n - 1 tokens into
      the slots of a fresh zero array, and stops at the first that is no
      number. */
  method ParseInto(slots: array<Slot>, ts: seq<string>, parse: string -> Option<Slot>) returns (ok: bool)
    requires slots.Length == |ts| >= 1 && slots[..] == Zeros(|ts|)
    modifies slots
    ensures var (ps, done) := ParseFeatures(ts, parse, |ts| - 1);
      ok == done && (ok ==> slots[..|ts| - 1] == ps && slots[|ts| - 1] == Some(0.0))
      && (!ok ==> slots[..] == ps + Zeros(|ts| - |ps|))
  {
    var len := |ts|;
    for i := 0 to len - 1
      invariant ParseFeatures(ts, parse, i) == (slots[..i], true)
      invariant slots[i..] == Zeros(len - i)
    {
      var feature := parse(ts[i]);
      if feature.None? {
        assert slots[..] == slots[..i] + slots[i..];
        FeaturesFailureStays(ts, parse, i + 1, len - 1);
        return false;
      }
      slots[i] := feature.value;
      assert slots[..i + 1] == slots[..i] + [feature.value];
      assert slots[i + 1..] == slots[i..][1..];
    }
    assert slots[len - 1..] == [slots[len - 1]];
    return true;
  }

  // ---------------------------------------------------------------------------
  // The record.

  class BasicDataRecord {
    /** The class of the record's implementation, which equals compares. */
    const kind: string
    /** labelTextToLabelId and labelIdToLabelText of that implementation. */
    const textToId: string -> Option<int>
    const idToText: int -> Option<string>

    var labelText: Option<string>
    var labelId: int
    var data: array?<Slot>

    /** labelText, labelId and data are all set. */
    predicate Initialized()
      reads this
    {
      labelText.Some? && labelId != -1 && data != null
    }

    /** None of them is set. */
    predicate Blank()
      reads this
    {
      labelText.None? && labelId == -1 && data == null
    }

    /** The default constructor, for records to be loaded from text. */
    constructor Empty(kind: string, textToId: string -> Option<int>, idToText: int -> Option<string>)
      ensures Blank() && this.kind == kind && this.textToId == textToId && this.idToText == idToText
    {
      this.kind := kind;
      this.textToId := textToId;
      this.idToText := idToText;
      labelText := None;
      labelId := -1;
      data := null;
    }

    /** The record of the given label over the given array, which the record
        shares with its caller. */
    constructor (kind: string, textToId: string -> Option<int>, idToText: int -> Option<string>,
                 labelText: string, labelId: int, data: array<Slot>)
      requires |labelText| > 0 && labelId >= 0 && data.Length > 0
      ensures Initialized() && this.labelText == Some(labelText) && this.labelId == labelId && this.data == data
      ensures this.kind == kind && this.textToId == textToId && this.idToText == idToText
    {
      this.kind := kind;
      this.textToId := textToId;
      this.idToText := idToText;
      this.labelText := Some(labelText);
      this.labelId := labelId;
      this.data := data;
    }

    /** `new BasicDataRecord(labelText, labelId, data)` with its checks: an
        empty label text, a negative label id and an empty vector are refused. */
    static method Create(kind: string, textToId: string -> Option<int>, idToText: int -> Option<string>,
                         labelText: string, labelId: int, data: array<Slot>) returns (r: Result<BasicDataRecord>)
      ensures r.Err? <==> |labelText| == 0 || labelId < 0 || data.Length == 0
      ensures r.Err? ==> r.error == IllegalArgument
      ensures r.Ok? ==> fresh(r.value) && r.value.Initialized() && r.value.data == data
                        && r.value.labelText == Some(labelText) && r.value.labelId == labelId
    {
      if |labelText| == 0 {
        return Err(IllegalArgument);
      }
      if labelId < 0 {
        return Err(IllegalArgument);
      }
      if data.Length == 0 {
        return Err(IllegalArgument);
      }
      var record := new BasicDataRecord(kind, textToId, idToText, labelText, labelId, data);
      return Ok(record);
    }

    /** saveToString: every slot printed with `show` (Double.toString), joined
        by ','. The trailing comma is deleted, which throws on an empty vector. */
    method SaveToString(show: Slot -> string) returns (r: Result<string>)
      ensures !Initialized() ==> r == Err(IllegalState)
      ensures Initialized() && data.Length == 0 ==> r == Err(IndexOutOfBounds)
      ensures Initialized() && data.Length > 0 ==> r == Ok(Join(Shown(data[..], show)))
    {
      if labelText.None? || labelId == -1 || data == null {
        return Err(IllegalState);
      }
      ghost var ts := Shown(data[..], show);
      var csv := "";
      for i := 0 to data.Length
        invariant csv == Trailing(ts[..i])
      {
        assert ts[..i + 1][..i] == ts[..i];
        csv := csv + show(data[i]) + ",";
      }
      if |csv| == 0 {
        return Err(IndexOutOfBounds);
      }
      assert ts[..data.Length] == ts;
      TrailingIsJoin(ts);
      return Ok(csv[..|csv| - 1]);
    }

    /** loadFromString: only on a record that is not initialized in any part;
        the state it leaves is LoadOf's. */
    method LoadFromString(s: string, parse: string -> Option<Slot>) returns (r: Outcome)
      modifies this
      ensures !old(Blank()) ==> r == Fail(IllegalState) && labelText == old(labelText) && labelId == old(labelId) && data == old(data)
      ensures old(Blank()) ==>
                var l := LoadOf(s, parse, textToId, idToText);
                && r == l.outcome && labelId == l.labelId && labelText == l.labelText
                && (l.data.None? ==> data == null)
                && (l.data.Some? ==> data != null && fresh(data) && data[..] == l.data.value)
    {
      if labelText.Some? || labelId != -1 || data != null {
        return Fail(IllegalState);
      }
      var csv := Split(s);
      var len := |csv|;
      if len < 2 {
        return Fail(IllegalArgument);
      }
      var slots := new Slot[len](_ => Some(0.0));
      data := slots;
      var parsed := ParseInto(slots, csv, parse);
      if !parsed {
        return Fail(IllegalArgument);
      }
      var read := LabelOf(csv[len - 1], parse, textToId);
      if read.None? {
        return Fail(IllegalArgument);
      }
      slots[len - 1] := read.value.0;
      labelId := read.value.1;
      assert slots[..] == slots[..len - 1] + [slots[len - 1]];
      labelText := idToText(labelId);
      return Pass;
    }

    /** equals: records of one implementation class, both initialized, with
        the same label id and element-wise equal data; labelText is not
        compared. */
    method Equals(other: BasicDataRecord?) returns (r: Result<bool>)
      ensures !Initialized() ==> r == Err(IllegalState)
      ensures Initialized() && (other == null || other.kind != kind) ==> r == Ok(false)
      ensures Initialized() && other != null && other.kind == kind && !other.Initialized() ==> r == Err(IllegalState)
      ensures Initialized() && other != null && other.kind == kind && other.Initialized() ==>
                r == Ok(labelId == other.labelId && SameData(data[..], other.data[..]))
    {
      if labelText.None? || labelId == -1 || data == null {
        return Err(IllegalState);
      }
      if other == null || other.kind != kind {
        return Ok(false);
      }
      if other.labelText.None? || other.labelId == -1 || other.data == null {
        return Err(IllegalState);
      }
      if labelId != other.labelId || data.Length != other.data.Length {
        return Ok(false);
      }
      for i := 0 to data.Length
        invariant forall j :: 0 <= j < i ==> SlotEquals(data[j], other.data[j])
      {
        if !SlotEquals(data[i], other.data[i]) {
          return Ok(false);
        }
      }
      return Ok(true);
    }
  }

  // ---------------------------------------------------------------------------
  // Properties.

  /** The StringBuilder of saveToString, its last comma deleted, is the join. */
  lemma {:induction false} TrailingIsJoin(ts: seq<string>)
    requires |ts| >= 1
    ensures |Trailing(ts)| >= 1 && Trailing(ts) == Join(ts) + ","
    decreases |ts|
  {
    if |ts| > 1 {
      var init := ts[..|ts| - 1];
      TrailingIsJoin(init);
      JoinSnoc(init, ts[|ts| - 1]);
      assert init + [ts[|ts| - 1]] == ts;
    }
  }

  /** Joining one more token at the end. */
  lemma {:induction false} JoinSnoc(ts: seq<string>, t: string)
    requires |ts| >= 1
    ensures Join(ts + [t]) == Join(ts) + "," + t
    decreases |ts|
  {
    if |ts| > 1 {
      assert (ts + [t])[1..] == ts[1..] + [t];
      JoinSnoc(ts[1..], t);
    } else {
      assert (ts + [t])[1..] == [t];
    }
  }

  /** Once a feature fails to parse, the loop ends there. */
  lemma {:induction false} FeaturesFailureStays(ts: seq<string>, parse: string -> Option<Slot>, i: nat, n: nat)
    requires i <= n <= |ts| && !ParseFeatures(ts, parse, i).1
    ensures ParseFeatures(ts, parse, n) == ParseFeatures(ts, parse, i)
    decreases n - i
  {
    if i < n {
      FeaturesFailureStays(ts, parse, i, n - 1);
    }
  }

  /** Splitting the comma join of comma-free tokens gives the tokens back. */
  lemma {:induction false} PiecesOfJoin(ts: seq<string>)
    requires |ts| >= 1 && forall k :: 0 <= k < |ts| ==> ',' !in ts[k]
    ensures Pieces(Join(ts)) == ts
    decreases |ts|
  {
    if |ts| > 1 {
      var rest := Join(ts[1..]);
      assert Join(ts) == ts[0] + "," + rest;
      PiecesAtComma(ts[0], rest);
      PiecesOfJoin(ts[1..]);
      assert ts == [ts[0]] + ts[1..];
    }
  }

  /** A comma after a comma-free head is where splitting cuts first. */
  lemma PiecesAtComma(head: string, rest: string)
    requires ',' !in head
    ensures Pieces(head + "," + rest) == [head] + Pieces(rest)
  {
    var s := head + "," + rest;
    assert s[|head|] == ',';
    var i := FirstComma(s);
    assert s[..|head|] == head;
    assert i == |head|;
    assert s[..i] == head;
    assert s[i + 1..] == rest;
  }

  /** String.split(",") undoes the join when there are at least two tokens, all
      of them proper tokens. */
  lemma SplitOfJoin(ts: seq<string>)
    requires |ts| >= 2 && forall k :: 0 <= k < |ts| ==> Token(ts[k])
    ensures Split(Join(ts)) == ts
  {
    PiecesOfJoin(ts);
    assert Join(ts) == ts[0] + "," + Join(ts[1..]);
    assert Join(ts)[|ts[0]|] == ',';
    assert ts[|ts| - 1] != "";
  }

  /** A vector of one slot is saved as a single token, which loadFromString
      refuses: such a record does not load back. */
  lemma OneSlotDoesNotLoad(v: Slot, show: Slot -> string, parse: string -> Option<Slot>,
                           textToId: string -> Option<int>, idToText: int -> Option<string>)
    requires Token(show(v))
    ensures LoadOf(Join([show(v)]), parse, textToId, idToText).outcome == Fail(IllegalArgument)
  {
  }

  /** Every token of the join, tagged by the slot it prints. */
  lemma {:induction false} FeaturesRoundTrip(data: seq<Slot>, ts: seq<string>, parse: string -> Option<Slot>, n: nat)
    requires n <= |data| == |ts| && forall k :: 0 <= k < |ts| ==> parse(ts[k]) == Some(data[k])
    ensures ParseFeatures(ts, parse, n) == (data[..n], true)
    decreases n
  {
    if n > 0 {
      FeaturesRoundTrip(data, ts, parse, n - 1);
      assert data[..n - 1] + [data[n - 1]] == data[..n];
    }
  }

  /** The round trip: when `parse` undoes `show` on the record's slots and
      `show` prints them as proper tokens,
      the vector has a feature slot and its last slot holds the label id, a
      blank record loads the text of a saved one to the same data and label
      id; the label text is whatever labelIdToLabelText makes of the id. */
  lemma RoundTrip(data: seq<Slot>, labelId: int, show: Slot -> string, parse: string -> Option<Slot>,
                  textToId: string -> Option<int>, idToText: int -> Option<string>)
    requires |data| >= 2 && 0 <= labelId && data[|data| - 1] == Some(labelId as real)
    requires IsFinite(labelId as real)
    requires forall k :: 0 <= k < |data| ==> Token(show(data[k])) && parse(show(data[k])) == Some(data[k])
    ensures var l := LoadOf(Join(Shown(data, show)), parse, textToId, idToText);
      l == Loaded(Some(data), labelId, idToText(labelId), Pass)
  {
    var ts := Shown(data, show);
    SplitOfJoin(ts);
    FeaturesRoundTrip(data, ts, parse, |data| - 1);
    assert parse(ts[|data| - 1]) == Some(Some(labelId as real));
    assert IsWhole(labelId as real);
    assert data[..|data| - 1] + [data[|data| - 1]] == data;
  }

  /** equals is symmetric, and a record equals itself exactly when its vector
      holds no NaN. */
  lemma SameDataFacts(a: seq<Slot>, b: seq<Slot>)
    ensures SameData(a, b) <==> SameData(b, a)
    ensures SameData(a, a) <==> forall i :: 0 <= i < |a| ==> a[i].Some?
  {
  }
}
