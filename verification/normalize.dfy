/** `build_master_csv` and its inner `norm`: each fetched record is
    reduced to the five columns id, title, date, amount and buyer, each
    taken from the first of several candidate keys whose value is truthy
    in Python's sense. */
module Normalize {

  /** A decoded JSON value as Python holds it. */
  datatype Value =
    | Null
    | Bool(b: bool)
    | Int(i: int)
    | Float(f: real)
    | Str(s: string)
    | List(elems: seq<Value>)
    | Dict(fields: map<string, Value>)

  /** Python truthiness: None, False, zero, and empty strings, lists and
      dicts are false; everything else is true. */
  predicate Truthy(v: Value) {
    match v
    case Null => false
    case Bool(b) => b
    case Int(i) => i != 0
    case Float(f) => f != 0.0
    case Str(s) => s != ""
    case List(elems) => elems != []
    case Dict(fields) => |fields| != 0
  }

  /** The exception `row.get(...)` raises on a record that is not a dict. */
  datatype Error = AttributeError

  datatype Result<T> = Ok(value: T) | Err(error: Error)

  /** `d.get(k)`: the value stored under k, or None when k is absent. */
  function Get(d: map<string, Value>, k: string): (v: Value)
    ensures k in d ==> v == d[k]
    ensures k !in d ==> v == Null
  {
    if k in d then d[k] else Null
  }

  /** Python's `c0 or c1 or ... or cn`: the first truthy operand, and the
      last operand when none is truthy. */
  function FirstTruthy(cands: seq<Value>): (v: Value)
    requires |cands| >= 1
    ensures v in cands
    ensures Truthy(v) <==> exists i :: 0 <= i < |cands| && Truthy(cands[i])
  {
    if |cands| == 1 || Truthy(cands[0]) then cands[0]
    else FirstTruthy(cands[1..])
  }

  /** The `or` chain picks the earliest truthy candidate. */
  lemma {:induction false} FirstTruthyPicksEarliest(cands: seq<Value>, i: nat)
    requires i < |cands| && Truthy(cands[i])
    requires forall j :: 0 <= j < i ==> !Truthy(cands[j])
    ensures FirstTruthy(cands) == cands[i]
  {
    if i > 0 {
      assert !Truthy(cands[0]);
      FirstTruthyPicksEarliest(cands[1..], i - 1);
    }
  }

  /** With no truthy candidate the chain yields the last candidate. */
  lemma {:induction false} FirstTruthyFallsBack(cands: seq<Value>)
    requires |cands| >= 1
    requires forall j :: 0 <= j < |cands| ==> !Truthy(cands[j])
    ensures FirstTruthy(cands) == cands[|cands| - 1]
  {
    if |cands| > 1 {
      FirstTruthyFallsBack(cands[1..]);
    }
  }

  /** The candidate keys of one output column, in the order `norm` tries
      them. */
  function Candidates(row: map<string, Value>, keys: seq<string>): (cs: seq<Value>)
    ensures |cs| == |keys|
    ensures forall i :: 0 <= i < |keys| ==> cs[i] == Get(row, keys[i])
  {
    if keys == [] then [] else [Get(row, keys[0])] + Candidates(row, keys[1..])
  }

  /** The value of one output column: the `or` chain over its keys. */
  function Field(row: map<string, Value>, keys: seq<string>): Value
    requires |keys| >= 1
  {
    FirstTruthy(Candidates(row, keys))
  }

  const IdKeys: seq<string> := ["id", "tender_id", "tenderId"]
  const TitleKeys: seq<string> := ["title", "name", "subject"]
  const DateKeys: seq<string> := ["date", "published_at", "publishDate"]
  const AmountKeys: seq<string> := ["amount", "value", "price"]
  const BuyerKeys: seq<string> := ["buyer", "procuringEntity"]

  /** The columns of the master table, in order. */
  const Headers: seq<string> := ["id", "title", "date", "amount", "buyer"]

  /** The buyer column: the `or` chain over buyer and procuringEntity,
      replaced by its `name` entry (None when absent) when it is a dict. */
  function Buyer(row: map<string, Value>): (v: Value)
    ensures var b := Field(row, BuyerKeys);
            && (b.Dict? ==> v == Get(b.fields, "name"))
            && (!b.Dict? ==> v == b)
  {
    var b := Field(row, BuyerKeys);
    if b.Dict? then Get(b.fields, "name") else b
  }

  /** A row of the master table: the five columns id, title, date, amount
      and buyer, in that order. */
  datatype MasterRow = MasterRow(id: Value, title: Value, date: Value, amount: Value, buyer: Value)

  /** The record `norm` builds from a dict. */
  function NormRow(row: map<string, Value>): MasterRow {
    MasterRow(Field(row, IdKeys), Field(row, TitleKeys), Field(row, DateKeys), Field(row, AmountKeys), Buyer(row))
  }

  /** `norm(row)`: a record that is not a dict raises AttributeError at its
      first `.get`. */
  function Norm(item: Value): (r: Result<MasterRow>)
    ensures r.Ok? <==> item.Dict?
    ensures r.Ok? ==> r.value == NormRow(item.fields)
  {
    match item
    case Dict(row) => Ok(NormRow(row))
    case _ => Err(AttributeError)
  }

  /** A column whose candidate keys are all absent is None. */
  lemma AbsentKeysGiveNone(row: map<string, Value>, keys: seq<string>)
    requires |keys| >= 1
    requires forall i :: 0 <= i < |keys| ==> keys[i] !in row
    ensures Field(row, keys) == Null
  {
    FirstTruthyFallsBack(Candidates(row, keys));
  }

  /** A column takes the value of its earliest truthy candidate key. */
  lemma FieldPicksEarliestTruthy(row: map<string, Value>, keys: seq<string>, i: nat)
    requires i < |keys| && keys[i] in row && Truthy(row[keys[i]])
    requires forall j :: 0 <= j < i ==> !Truthy(Get(row, keys[j]))
    ensures Field(row, keys) == row[keys[i]]
  {
    FirstTruthyPicksEarliest(Candidates(row, keys), i);
  }

  /** A truthy `buyer` dict is replaced by its name, whatever
      procuringEntity holds. */
  lemma NestedBuyerUnwrapped(row: map<string, Value>, fields: map<string, Value>)
    requires "buyer" in row && row["buyer"] == Dict(fields) && |fields| != 0
    ensures Buyer(row) == Get(fields, "name")
  {
    FirstTruthyPicksEarliest(Candidates(row, BuyerKeys), 0);
  }

  /** The master table: its column names and its rows. */
  datatype Table = Table(columns: seq<string>, rows: seq<MasterRow>)

  /** `[norm(x) for x in items]`: the normalised records in order, or
      AttributeError when some record is not a dict. */
  function NormAll(items: seq<Value>): (r: Result<seq<MasterRow>>)
    ensures r.Ok? <==> forall i :: 0 <= i < |items| ==> items[i].Dict?
    ensures r.Ok? ==> |r.value| == |items|
    ensures r.Ok? ==> forall i :: 0 <= i < |items| ==> Norm(items[i]) == Ok(r.value[i])
  {
    if forall i :: 0 <= i < |items| ==> items[i].Dict? then
      Ok(seq(|items|, i requires 0 <= i < |items| => NormRow(items[i].fields)))
    else Err(AttributeError)
  }

  /** `build_master_csv` before writing: an empty item list gives a table
      with the five headers and no rows; otherwise one row per item, whose
      keys are the same five headers. */
  function BuildMaster(items: seq<Value>): (r: Result<Table>)
    ensures r.Ok? <==> forall i :: 0 <= i < |items| ==> items[i].Dict?
    ensures r.Ok? ==> r.value.columns == Headers && |r.value.rows| == |items|
    ensures r.Ok? ==> forall i :: 0 <= i < |items| ==> Norm(items[i]) == Ok(r.value.rows[i])
    ensures items == [] ==> r == Ok(Table(Headers, []))
  {
    if items == [] then Ok(Table(Headers, []))
    else match NormAll(items)
      case Ok(rows) => Ok(Table(Headers, rows))
      case Err(e) => Err(e)
  }

}
