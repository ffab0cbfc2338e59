/**
 * The portfolio file check: required top-level keys, the two record lists, and the required keys of
 * every holding and transaction, reported as the first failure in a fixed order.
 *
 * The check uses Python's `in` on whatever value it finds: on a dictionary it tests the keys, on a
 * list the elements, on a string the substrings, and on any other value it raises `TypeError`. The
 * model keeps all four cases, so a record that is a string or a number behaves as it does in the
 * source.
 */
module Schema {
  import opened Results

  /** A decoded JSON value. */
  datatype Json =
    | JNull
    | JBool(b: bool)
    | JNum(n: real)
    | JStr(s: string)
    | JArr(items: seq<Json>)
    | JObj(fields: map<string, Json>)

  const TopFields: seq<string> := ["holdings", "transactions", "start_date"]
  const HoldingFields: seq<string> := ["symbol", "asset_type", "quantity", "avg_price"]
  const TransactionFields: seq<string> := ["date", "symbol", "transaction_type", "quantity", "price"]

  /** The first failure the check reports. */
  datatype Problem =
    | MissingField(field: string)
    | NotAList(field: string)
    | HoldingMissing(index: nat, field: string)
    | TransactionMissing(index: nat, field: string)

  /** Valid, the first problem, or the `TypeError` raised by `in` on a record that is not a container. */
  datatype Verdict = Valid | Invalid(problem: Problem) | Raised

  /** `key` occurs in `s` as a contiguous piece. */
  predicate Substring(key: string, s: string)
  {
    exists i :: 0 <= i <= |s| && key <= s[i..]
  }

  /** Python's `key in v`: `None` when the test raises `TypeError`. */
  function Contains(v: Json, key: string): Option<bool>
  {
    match v
    case JObj(m) => Some(key in m)
    case JArr(xs) => Some(JStr(key) in xs)
    case JStr(s) => Some(Substring(key, s))
    case _ => None
  }

  /** Position of the first field `v` does not contain (or cannot be asked about), else the length. */
  function FirstAbsent(v: Json, fields: seq<string>): (k: nat)
    ensures k <= |fields|
    ensures forall j :: 0 <= j < k ==> Contains(v, fields[j]) == Some(true)
    ensures k < |fields| ==> Contains(v, fields[k]) != Some(true)
  {
    if |fields| == 0 || Contains(v, fields[0]) != Some(true) then 0
    else 1 + FirstAbsent(v, fields[1..])
  }

  /** A record that contains every field in `fields`. */
  predicate HasAll(v: Json, fields: seq<string>)
  {
    forall j :: 0 <= j < |fields| ==> Contains(v, fields[j]) == Some(true)
  }

  /** The outcome of checking one list of records: where it first fails, if anywhere. */
  datatype RecordCheck =
    | AllPresent
    | Absent(index: nat, field: string)  // record `index` lacks `field`
    | NotContainer(index: nat)           // `in` on record `index` raises `TypeError`

  /** Position of the first record that lacks one of `fields`, else the length. */
  function FirstIncomplete(items: seq<Json>, fields: seq<string>): (k: nat)
    ensures k <= |items|
    ensures forall i :: 0 <= i < k ==> HasAll(items[i], fields)
    ensures k < |items| ==> !HasAll(items[k], fields)
  {
    if |items| == 0 || FirstAbsent(items[0], fields) < |fields| then 0
    else 1 + FirstIncomplete(items[1..], fields)
  }

  /** The records loop of the source: records by index, fields in list order. */
  function CheckRecords(items: seq<Json>, fields: seq<string>): RecordCheck
  {
    var i := FirstIncomplete(items, fields);
    if i == |items| then AllPresent
    else
      var f := FirstAbsent(items[i], fields);
      if Contains(items[i], fields[f]).None? then NotContainer(i) else Absent(i, fields[f])
  }

  /** The whole check, in the order the source performs it. */
  function Validate(data: map<string, Json>): Verdict
  {
    var top := FirstAbsent(JObj(data), TopFields);
    if top < |TopFields| then Invalid(MissingField(TopFields[top]))
    else
      assert Contains(JObj(data), TopFields[0]) == Contains(JObj(data), TopFields[1]) == Some(true);
      if !data["holdings"].JArr? then Invalid(NotAList("holdings"))
      else
        match CheckRecords(data["holdings"].items, HoldingFields)
        case Absent(i, f) => Invalid(HoldingMissing(i, f))
        case NotContainer(_) => Raised
        case AllPresent =>
          if !data["transactions"].JArr? then Invalid(NotAList("transactions"))
          else
            match CheckRecords(data["transactions"].items, TransactionFields)
            case Absent(i, f) => Invalid(TransactionMissing(i, f))
            case NotContainer(_) => Raised
            case AllPresent => Valid
  }

  // ---------------------------------------------------------------------------------------------
  // Declarative reading of the check
  // ---------------------------------------------------------------------------------------------

  predicate TopPresent(data: map<string, Json>)
  {
    "holdings" in data && "transactions" in data && "start_date" in data
  }

  predicate AllHave(items: seq<Json>, fields: seq<string>)
  {
    forall i :: 0 <= i < |items| ==> HasAll(items[i], fields)
  }

  /** A conforming portfolio file: both lists present and every record carrying its fields. */
  predicate Conforms(data: map<string, Json>)
  {
    TopPresent(data) &&
    data["holdings"].JArr? && AllHave(data["holdings"].items, HoldingFields) &&
    data["transactions"].JArr? && AllHave(data["transactions"].items, TransactionFields)
  }

  /** `f` is the first of `fields` that `v` lacks (and `v` can be asked about it). */
  predicate MissesFirst(v: Json, fields: seq<string>, f: string)
  {
    exists k :: 0 <= k < |fields| && fields[k] == f && Contains(v, fields[k]) == Some(false) &&
      forall j :: 0 <= j < k ==> Contains(v, fields[j]) == Some(true)
  }

  /** Record `i` is the first incomplete one and lacks `f` first. */
  predicate FailsFirst(items: seq<Json>, fields: seq<string>, i: nat, f: string)
  {
    i < |items| && (forall j :: 0 <= j < i ==> HasAll(items[j], fields)) && MissesFirst(items[i], fields, f)
  }

  /** Record `i` is the first incomplete one and is neither a dictionary, a list nor a string. */
  predicate RaisesFirst(items: seq<Json>, fields: seq<string>, i: nat)
  {
    i < |items| && (forall j :: 0 <= j < i ==> HasAll(items[j], fields)) && Contains(items[i], "").None?
  }

  // ---------------------------------------------------------------------------------------------
  // The records loop against its declarative reading
  // ---------------------------------------------------------------------------------------------

  lemma FirstAbsentIsMissesFirst(v: Json, fields: seq<string>, f: string)
    ensures MissesFirst(v, fields, f) <==>
      FirstAbsent(v, fields) < |fields| && fields[FirstAbsent(v, fields)] == f &&
      Contains(v, f) == Some(false)
  {
    var k := FirstAbsent(v, fields);
    if MissesFirst(v, fields, f) {
      var k' :| 0 <= k' < |fields| && fields[k'] == f && Contains(v, fields[k']) == Some(false) &&
        forall j :: 0 <= j < k' ==> Contains(v, fields[j]) == Some(true);
      assert k' == k;
    }
  }

  lemma AllPresentIff(items: seq<Json>, fields: seq<string>)
    ensures CheckRecords(items, fields) == AllPresent <==> AllHave(items, fields)
  {
    var i := FirstIncomplete(items, fields);
    if i < |items| {
      assert !HasAll(items[i], fields);
    }
  }

  lemma AbsentIff(items: seq<Json>, fields: seq<string>, i: nat, f: string)
    ensures CheckRecords(items, fields) == Absent(i, f) <==> FailsFirst(items, fields, i, f)
  {
    var k := FirstIncomplete(items, fields);
    if CheckRecords(items, fields) == Absent(i, f) {
      FirstAbsentIsMissesFirst(items[i], fields, f);
    }
    if FailsFirst(items, fields, i, f) {
      FirstAbsentIsMissesFirst(items[i], fields, f);
      assert k == i;
    }
  }

  lemma NotContainerIff(items: seq<Json>, fields: seq<string>, i: nat)
    requires |fields| > 0
    ensures CheckRecords(items, fields) == NotContainer(i) <==> RaisesFirst(items, fields, i)
  {
    var k := FirstIncomplete(items, fields);
    if RaisesFirst(items, fields, i) {
      assert Contains(items[i], fields[0]) != Some(true);
      assert k == i;
    }
  }

  // ---------------------------------------------------------------------------------------------
  // The whole check
  // ---------------------------------------------------------------------------------------------

  lemma TopPresentIff(data: map<string, Json>)
    ensures FirstAbsent(JObj(data), TopFields) == |TopFields| <==> TopPresent(data)
  {
    if TopPresent(data) {
      assert HasAll(JObj(data), TopFields);
    } else {
      assert TopFields[0] == "holdings" && TopFields[1] == "transactions" && TopFields[2] == "start_date";
      assert !HasAll(JObj(data), TopFields);
    }
  }

  /** The check passes exactly when the file conforms. */
  lemma ValidIffConforms(data: map<string, Json>)
    ensures Validate(data) == Valid <==> Conforms(data)
  {
    TopPresentIff(data);
    if TopPresent(data) && data["holdings"].JArr? {
      AllPresentIff(data["holdings"].items, HoldingFields);
      if data["transactions"].JArr? {
        AllPresentIff(data["transactions"].items, TransactionFields);
      }
    }
  }

  /** A missing top-level key is reported first, and it is the first one in list order. */
  lemma MissingFieldFirst(data: map<string, Json>, f: string)
    ensures Validate(data) == Invalid(MissingField(f)) <==> MissesFirst(JObj(data), TopFields, f)
  {
    TopPresentIff(data);
    FirstAbsentIsMissesFirst(JObj(data), TopFields, f);
  }

  /** A list that is not a list is reported once everything checked before it has passed. */
  lemma NotAListFirst(data: map<string, Json>, f: string)
    ensures Validate(data) == Invalid(NotAList(f)) <==>
      TopPresent(data) &&
      ((f == "holdings" && !data["holdings"].JArr?) ||
       (f == "transactions" && data["holdings"].JArr? && AllHave(data["holdings"].items, HoldingFields) &&
        !data["transactions"].JArr?))
  {
    TopPresentIff(data);
    if TopPresent(data) && data["holdings"].JArr? {
      AllPresentIff(data["holdings"].items, HoldingFields);
    }
  }

  /** A holding's missing field is reported for the first incomplete holding, first field first. */
  lemma HoldingMissingFirst(data: map<string, Json>, i: nat, f: string)
    ensures Validate(data) == Invalid(HoldingMissing(i, f)) <==>
      TopPresent(data) && data["holdings"].JArr? && FailsFirst(data["holdings"].items, HoldingFields, i, f)
  {
    TopPresentIff(data);
    if TopPresent(data) && data["holdings"].JArr? {
      AbsentIff(data["holdings"].items, HoldingFields, i, f);
    }
  }

  /** A transaction's missing field is reported only once every holding is complete. */
  lemma TransactionMissingFirst(data: map<string, Json>, i: nat, f: string)
    ensures Validate(data) == Invalid(TransactionMissing(i, f)) <==>
      TopPresent(data) && data["holdings"].JArr? && AllHave(data["holdings"].items, HoldingFields) &&
      data["transactions"].JArr? && FailsFirst(data["transactions"].items, TransactionFields, i, f)
  {
    TopPresentIff(data);
    if TopPresent(data) && data["holdings"].JArr? {
      AllPresentIff(data["holdings"].items, HoldingFields);
      if data["transactions"].JArr? {
        AbsentIff(data["transactions"].items, TransactionFields, i, f);
      }
    }
  }

  /** The check raises exactly when the first incomplete record is not a container. */
  lemma RaisedIff(data: map<string, Json>)
    ensures Validate(data) == Raised <==>
      TopPresent(data) && data["holdings"].JArr? &&
      ((exists i :: RaisesFirst(data["holdings"].items, HoldingFields, i)) ||
       (AllHave(data["holdings"].items, HoldingFields) && data["transactions"].JArr? &&
        exists i :: RaisesFirst(data["transactions"].items, TransactionFields, i)))
  {
    TopPresentIff(data);
    if TopPresent(data) && data["holdings"].JArr? {
      var hs := data["holdings"].items;
      AllPresentIff(hs, HoldingFields);
      match CheckRecords(hs, HoldingFields)
      case NotContainer(i) => NotContainerIff(hs, HoldingFields, i);
      case Absent(i, f) =>
        AbsentIff(hs, HoldingFields, i, f);
        if exists j :: RaisesFirst(hs, HoldingFields, j) {
          var j :| RaisesFirst(hs, HoldingFields, j);
          NotContainerIff(hs, HoldingFields, j);
        }
      case AllPresent =>
        if exists j :: RaisesFirst(hs, HoldingFields, j) {
          var j :| RaisesFirst(hs, HoldingFields, j);
          NotContainerIff(hs, HoldingFields, j);
        }
        if data["transactions"].JArr? {
          var ts := data["transactions"].items;
          match CheckRecords(ts, TransactionFields)
          case NotContainer(i) => NotContainerIff(ts, TransactionFields, i);
          case Absent(i, f) =>
            if exists j :: RaisesFirst(ts, TransactionFields, j) {
              var j :| RaisesFirst(ts, TransactionFields, j);
              NotContainerIff(ts, TransactionFields, j);
            }
          case AllPresent =>
            if exists j :: RaisesFirst(ts, TransactionFields, j) {
              var j :| RaisesFirst(ts, TransactionFields, j);
              NotContainerIff(ts, TransactionFields, j);
            }
        }
    }
  }
}
