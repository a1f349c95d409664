/** Shared vocabulary: optional values, the loosely-typed record the pages
    keep in React state, field writes emitted by form controls, and the few
    string operations the pages use. */
module Common {

  datatype Option<+T> = None | Some(value: T) {
    function GetOr(default: T): T {
      match this
      case Some(v) => v
      case None => default
    }
  }

  /** A field value of a caregiver row: free text, a choice code or a boolean. */
  datatype Value = Str(s: string) | Bool(b: bool)

  /** A row as the pages hold it: an open property bag. A missing key reads as
      `undefined`. */
  type Record = map<string, Value>

  /** JavaScript truthiness of a value that may be `undefined` (`None`): it,
      the empty string and `false` are falsy; everything else is truthy. */
  predicate TruthyValue(v: Option<Value>)
  {
    match v
    case None => false
    case Some(Str(s)) => s != ""
    case Some(Bool(b)) => b
  }

  /** JavaScript truthiness of `rec?.key`. */
  predicate Filled(rec: Record, key: string)
  {
    TruthyValue(if key in rec then Some(rec[key]) else None)
  }

  /** The text stored under `key`, if the key holds a string. */
  function TextOf(rec: Record, key: string): (r: Option<string>)
    ensures r.Some? <==> key in rec && rec[key].Str?
    ensures r.Some? ==> rec[key] == Str(r.value)
  {
    if key in rec && rec[key].Str? then Some(rec[key].s) else None
  }

  /** One call of a section's `onInputChange(field, value)` callback. */
  datatype Write = Write(field: string, value: Value)

  /** The draft after a section's writes, applied in order, each one to the
      draft the previous one left. This assumes the parent that wires the
      callback (not part of this model) updates functionally, as
      `{...prev, [field]: value}` does. */
  function ApplyWrites(rec: Record, writes: seq<Write>): (r: Record)
    ensures r.Keys == rec.Keys + set w | w in writes :: w.field
    decreases |writes|
  {
    if writes == [] then rec
    else ApplyWrites(rec[writes[0].field := writes[0].value], writes[1..])
  }

  /** Keys no write names keep their value. */
  lemma {:induction false} ApplyWritesUntouched(rec: Record, writes: seq<Write>, key: string)
    requires forall i :: 0 <= i < |writes| ==> writes[i].field != key
    ensures key in ApplyWrites(rec, writes) <==> key in rec
    ensures key in rec ==> ApplyWrites(rec, writes)[key] == rec[key]
    decreases |writes|
  {
    if writes != [] {
      ApplyWritesUntouched(rec[writes[0].field := writes[0].value], writes[1..], key);
    }
  }

  /** The last write to a key decides its value. */
  lemma {:induction false} ApplyWritesLast(rec: Record, writes: seq<Write>, i: nat)
    requires i < |writes|
    requires forall j :: i < j < |writes| ==> writes[j].field != writes[i].field
    ensures writes[i].field in ApplyWrites(rec, writes)
    ensures ApplyWrites(rec, writes)[writes[i].field] == writes[i].value
    decreases |writes|
  {
    if i == 0 {
      var key := writes[0].field;
      forall j | 0 <= j < |writes[1..]| ensures writes[1..][j].field != key {
        assert writes[1..][j] == writes[j + 1];
      }
      ApplyWritesUntouched(rec[key := writes[0].value], writes[1..], key);
    } else {
      ApplyWritesLast(rec[writes[0].field := writes[0].value], writes[1..], i - 1);
    }
  }

  predicate StartsWith(s: string, prefix: string)
  {
    |prefix| <= |s| && s[..|prefix|] == prefix
  }

  /** `hay.includes(needle)`: the needle occurs at some offset of the hay. */
  predicate Contains(hay: string, needle: string)
  {
    exists i :: 0 <= i <= |hay| && StartsWith(hay[i..], needle)
  }

  lemma EmptyContained(hay: string)
    ensures Contains(hay, "")
  {
    assert StartsWith(hay[0..], "");
  }
}
