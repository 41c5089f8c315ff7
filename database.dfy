/**
 * The stored-procedure helpers of lib/database.ts: how `execute` turns a
 * procedure name and a parameter record into SQL text and positional
 * values, how it reports a failure, and the two logging procedures built
 * on it. The connection pool is host behaviour: a query arrives as a
 * function from SQL text and values to rows or an error message.
 */
module Database {
  import opened Results
  import opened Js
  import opened Text
  import Decimal

  /** `p_${k} := $${i + 1}` */
  function Assignment(key: string, position: nat): string {
    "p_" + key + " := $" + Decimal.NatToString(position)
  }

  /** `keys.map((k, i) => ...)`: the i-th key is bound to placeholder i + 1. */
  function Assignments(keys: seq<string>): (r: seq<string>)
    ensures |r| == |keys| && forall i :: 0 <= i < |keys| ==> r[i] == Assignment(keys[i], i + 1)
  {
    seq(|keys|, i requires 0 <= i < |keys| => Assignment(keys[i], i + 1))
  }

  /** `parts.join(sep)` */
  function Join(parts: seq<string>, sep: string): string {
    if parts == [] then "" else if |parts| == 1 then parts[0] else parts[0] + sep + Join(parts[1..], sep)
  }

  /** `SELECT * FROM ${procedure}(${assignments})` */
  function Sql(procedure: string, params: seq<Prop>): string {
    "SELECT * FROM " + procedure + "(" + Join(Assignments(KeysOf(params)), ", ") + ")"
  }

  /**
   * The text of the call: the prefix and the procedure, then in parentheses
   * `p_<key> := $<n>` for the n-th parameter, in the record's order,
   * separated by ", ".
   */
  lemma SqlShape(procedure: string, params: seq<Prop>)
    ensures var sql := Sql(procedure, params);
      StartsWith(sql, "SELECT * FROM " + procedure + "(") && sql[|sql| - 1] == ')'
    ensures Sql(procedure, params) ==
      "SELECT * FROM " + procedure + "("
      + Join(seq(|params|, i requires 0 <= i < |params| =>
               "p_" + params[i].key + " := $" + Decimal.NatToString(i + 1)), ", ")
      + ")"
  {
    var sql := Sql(procedure, params);
    var head := "SELECT * FROM " + procedure + "(";
    assert sql == head + Join(Assignments(KeysOf(params)), ", ") + ")";
    assert sql[..|head|] == head;
    assert Assignments(KeysOf(params)) ==
      seq(|params|, i requires 0 <= i < |params| => "p_" + params[i].key + " := $" + Decimal.NatToString(i + 1));
  }

  /** Without parameters the procedure is called with empty parentheses. */
  lemma SqlWithoutParams(procedure: string)
    ensures Sql(procedure, []) == "SELECT * FROM " + procedure + "()"
  {
    assert Assignments(KeysOf([])) == [];
  }

  /** How many times c occurs in s. */
  function Count(s: string, c: char): nat {
    if s == [] then 0 else (if s[0] == c then 1 else 0) + Count(s[1..], c)
  }

  lemma {:induction false} CountAppend(a: string, b: string, c: char)
    ensures Count(a + b, c) == Count(a, c) + Count(b, c)
  {
    if a == [] {
      assert a + b == b;
    } else {
      assert (a + b)[1..] == a[1..] + b;
      CountAppend(a[1..], b, c);
    }
  }

  lemma {:induction false} CountAbsent(s: string, c: char)
    requires c !in s
    ensures Count(s, c) == 0
  {
    if s != [] {
      assert forall y :: y in s[1..] ==> y in s;
      CountAbsent(s[1..], c);
    }
  }

  /** Each assignment holds exactly one placeholder sign when its key has none. */
  lemma AssignmentHasOnePlaceholder(key: string, position: nat)
    requires '$' !in key
    ensures Count(Assignment(key, position), '$') == 1
  {
    var digits := Decimal.NatToString(position);
    assert '$' !in digits by {
      assert forall i :: 0 <= i < |digits| ==> Decimal.IsDigit(digits[i]);
    }
    CountAbsent(key, '$');
    CountAbsent(digits, '$');
    CountAbsent("p_", '$');
    CountAbsent(" := ", '$');
    CountAppend("p_", key, '$');
    CountAppend("p_" + key, " := ", '$');
    CountAppend("p_" + key + " := ", "$", '$');
    CountAppend("p_" + key + " := $", digits, '$');
    assert "p_" + key + " := $" == "p_" + key + " := " + "$";
  }

  /** Joining with ', ' adds no placeholder sign. */
  lemma {:induction false} JoinCount(parts: seq<string>, total: nat)
    requires total == |parts|
    requires forall i :: 0 <= i < |parts| ==> Count(parts[i], '$') == 1
    ensures Count(Join(parts, ", "), '$') == total
  {
    if |parts| == 1 {
    } else if |parts| >= 2 {
      JoinCount(parts[1..], total - 1);
      CountAbsent(", ", '$');
      CountAppend(parts[0], ", ", '$');
      CountAppend(parts[0] + ", ", Join(parts[1..], ", "), '$');
    }
  }

  /**
   * The SQL text carries exactly one placeholder per parameter, when neither
   * the procedure name nor a key holds a '$'.
   */
  lemma PlaceholderPerParam(procedure: string, params: seq<Prop>)
    requires '$' !in procedure && forall i :: 0 <= i < |params| ==> '$' !in params[i].key
    ensures Count(Sql(procedure, params), '$') == |params|
  {
    var list := Join(Assignments(KeysOf(params)), ", ");
    var head := "SELECT * FROM " + procedure + "(";
    ListCount(params);
    HeadCount(procedure);
    CountAbsent(")", '$');
    CountAppend(head, list, '$');
    CountAppend(head + list, ")", '$');
  }

  lemma ListCount(params: seq<Prop>)
    requires forall i :: 0 <= i < |params| ==> '$' !in params[i].key
    ensures Count(Join(Assignments(KeysOf(params)), ", "), '$') == |params|
  {
    var a := Assignments(KeysOf(params));
    EachAssignmentCount(KeysOf(params), a);
    JoinCount(a, |params|);
  }

  lemma EachAssignmentCount(keys: seq<string>, a: seq<string>)
    requires forall i :: 0 <= i < |keys| ==> '$' !in keys[i]
    requires |a| == |keys| && forall i :: 0 <= i < |keys| ==> a[i] == Assignment(keys[i], i + 1)
    ensures forall i :: 0 <= i < |a| ==> Count(a[i], '$') == 1
  {
    forall i | 0 <= i < |a|
      ensures Count(a[i], '$') == 1
    {
      AssignmentHasOnePlaceholder(keys[i], i + 1);
    }
  }

  lemma HeadCount(procedure: string)
    requires '$' !in procedure
    ensures Count("SELECT * FROM " + procedure + "(", '$') == 0
  {
    CountAbsent(procedure, '$');
    CountAbsent("SELECT * FROM ", '$');
    CountAbsent("(", '$');
    CountAppend("SELECT * FROM ", procedure, '$');
    CountAppend("SELECT * FROM " + procedure, "(", '$');
  }

  /** The pool's `query(sql, values)`: rows, or the message of the error it threw. */
  type Query = (string, seq<Value>) -> Result<seq<Value>>

  /**
   * `execute`: the call is sent as the SQL text with the record's values in
   * key order; the rows come back as they are, and a failure is reported
   * with the procedure name in brackets in front of the driver's message.
   */
  function Execute(procedure: string, params: seq<Prop>, query: Query): (r: Result<seq<Value>>)
    ensures query(Sql(procedure, params), ValuesOf(params)).Ok? ==>
      r == Ok(query(Sql(procedure, params), ValuesOf(params)).value)
    ensures query(Sql(procedure, params), ValuesOf(params)).Err? ==>
      r.Err? && r.message == "[" + procedure + "] " + query(Sql(procedure, params), ValuesOf(params)).message
  {
    match query(Sql(procedure, params), ValuesOf(params))
    case Ok(rows) => Ok(rows)
    case Err(msg) => Err("[" + procedure + "] " + msg)
  }

  /** The i-th value sent is the value of the key that placeholder i + 1 names. */
  lemma ValuesFollowKeys(params: seq<Prop>, i: nat)
    requires i < |params|
    ensures Assignments(KeysOf(params))[i] == Assignment(params[i].key, i + 1)
    ensures ValuesOf(params)[i] == Lookup(params, params[i].key) || exists j :: 0 <= j < i && params[j].key == params[i].key
  {
    LookupFirst(params, i);
  }

  /** A record whose keys are distinct gives each key its own value. */
  lemma {:induction false} LookupFirst(params: seq<Prop>, i: nat)
    requires i < |params|
    ensures Lookup(params, params[i].key) == params[i].val || exists j :: 0 <= j < i && params[j].key == params[i].key
  {
    if i > 0 && params[0].key != params[i].key {
      LookupFirst(params[1..], i - 1);
      if exists j :: 0 <= j < i - 1 && params[1..][j].key == params[1..][i - 1].key {
        var j :| 0 <= j < i - 1 && params[1..][j].key == params[1..][i - 1].key;
        assert params[j + 1].key == params[i].key;
      }
    }
  }

  // ---------------------------------------------------------------------
  // logapi
  // ---------------------------------------------------------------------

  /** What `logapi` reads of the request; the socket address and the clock are inputs. */
  datatype ApiCall = ApiCall(url: Option<string>, verb: Option<string>, forwardedFor: Value,
                             remoteAddress: Option<string>, userAgent: Value)

  /** `req.url?.split('?')[0] || ''`: the path without its query string. */
  function Endpoint(url: Option<string>): (r: string)
    ensures '?' !in r
    ensures url.Some? ==> |r| <= |url.value| && r == url.value[..|r|]
    ensures url.Some? && '?' !in url.value ==> r == url.value
    ensures url.Some? && |r| < |url.value| ==> url.value[|r|] == '?'
    ensures url.None? ==> r == ""
  {
    if url.Some? then BeforeFirst(url.value, '?') else ""
  }

  function TextValue(v: Option<string>): Value {
    if v.Some? then Str(v.value) else Undefined
  }

  /** The record sent to `dbo.sp_log_api`, keys in the order the source lists them. */
  function LogApiParams(companyid: Value, call: ApiCall, status: real, start: real, now: real): (r: seq<Prop>)
    ensures KeysOf(r) == ["companyid", "endpoint", "method", "status", "ipaddress", "useragent", "duration_ms"]
    ensures Lookup(r, "endpoint") == Str(Endpoint(call.url))
    ensures r[6].val.Num? && r[6].val.n + start == now
  {
    [Prop("companyid", companyid),
     Prop("endpoint", Str(Endpoint(call.url))),
     Prop("method", Or(TextValue(call.verb), Str(""))),
     Prop("status", Num(status)),
     Prop("ipaddress", Or(call.forwardedFor, Or(TextValue(call.remoteAddress), Str("")))),
     Prop("useragent", Or(call.userAgent, Str(""))),
     Prop("duration_ms", Num(now - start))]
  }

  /** `logapi`: one call of `dbo.sp_log_api`. */
  function LogApi(companyid: Value, call: ApiCall, status: real, start: real, now: real, query: Query): Result<seq<Value>> {
    Execute("dbo.sp_log_api", LogApiParams(companyid, call, status, start, now), query)
  }

  /** The logging call binds the seven columns to $1..$7 in the order listed. */
  lemma LogApiSql(companyid: Value, call: ApiCall, status: real, start: real, now: real)
    ensures Assignments(KeysOf(LogApiParams(companyid, call, status, start, now))) ==
      ["p_companyid := $1", "p_endpoint := $2", "p_method := $3", "p_status := $4",
       "p_ipaddress := $5", "p_useragent := $6", "p_duration_ms := $7"]
  {
    Digits();
    LogApiAssignments(KeysOf(LogApiParams(companyid, call, status, start, now)));
  }

  lemma LogApiAssignments(keys: seq<string>)
    requires keys == ["companyid", "endpoint", "method", "status", "ipaddress", "useragent", "duration_ms"]
    requires Decimal.NatToString(1) == "1" && Decimal.NatToString(2) == "2" && Decimal.NatToString(3) == "3"
    requires Decimal.NatToString(4) == "4" && Decimal.NatToString(5) == "5" && Decimal.NatToString(6) == "6"
    requires Decimal.NatToString(7) == "7"
    ensures Assignments(keys) == ["p_companyid := $1", "p_endpoint := $2", "p_method := $3", "p_status := $4",
                                  "p_ipaddress := $5", "p_useragent := $6", "p_duration_ms := $7"]
  {
    FirstLogApiAssignments();
    LastLogApiAssignments();
  }

  lemma FirstLogApiAssignments()
    requires Decimal.NatToString(1) == "1" && Decimal.NatToString(2) == "2" && Decimal.NatToString(3) == "3"
    requires Decimal.NatToString(4) == "4"
    ensures Assignment("companyid", 1) == "p_companyid := $1"
    ensures Assignment("endpoint", 2) == "p_endpoint := $2"
    ensures Assignment("method", 3) == "p_method := $3"
    ensures Assignment("status", 4) == "p_status := $4"
  {
  }

  lemma LastLogApiAssignments()
    requires Decimal.NatToString(5) == "5" && Decimal.NatToString(6) == "6" && Decimal.NatToString(7) == "7"
    ensures Assignment("ipaddress", 5) == "p_ipaddress := $5"
    ensures Assignment("useragent", 6) == "p_useragent := $6"
    ensures Assignment("duration_ms", 7) == "p_duration_ms := $7"
  {
  }

  lemma Digits()
    ensures Decimal.NatToString(1) == "1" && Decimal.NatToString(2) == "2" && Decimal.NatToString(3) == "3"
    ensures Decimal.NatToString(4) == "4" && Decimal.NatToString(5) == "5" && Decimal.NatToString(6) == "6"
    ensures Decimal.NatToString(7) == "7"
  {
  }

  // ---------------------------------------------------------------------
  // logerror
  // ---------------------------------------------------------------------

  /** `v ?? d` */
  function Coalesce(v: Value, d: Value): (r: Value)
    ensures IsNullish(v) ==> r == d
    ensures !IsNullish(v) ==> r == v
  {
    if IsNullish(v) then d else v
  }

  /**
   * The record sent to `dbo.sp_log_error` for a non-null error: missing
   * numbers become 0, a missing procedure '', and the message falls back to
   * `String(err)`.
   */
  function LogErrorParams(spName: string, err: Value, numText: real -> string): (r: seq<Prop>)
    requires !IsNullish(err)
    ensures KeysOf(r) == ["spName", "errorNumber", "errorSeverity", "errorState", "errorProcedure",
                          "errorLine", "errorMessage"]
    ensures r[0].val == Str(spName)
    ensures r[1].val == Coalesce(Get(err, "number"), Num(0.0))
    ensures r[2].val == Coalesce(Get(err, "severity"), Num(0.0))
    ensures r[3].val == Coalesce(Get(err, "state"), Num(0.0))
    ensures r[4].val == Coalesce(Get(err, "procedure"), Str(""))
    ensures r[5].val == Coalesce(Get(err, "lineNumber"), Num(0.0))
    ensures !IsNullish(r[1].val) && !IsNullish(r[2].val) && !IsNullish(r[3].val)
      && !IsNullish(r[4].val) && !IsNullish(r[5].val)
    ensures Truthy(Get(err, "message")) ==> r[6].val == Get(err, "message")
    ensures !Truthy(Get(err, "message")) ==> r[6].val == Str(Display(err, numText))
  {
    [Prop("spName", Str(spName)),
     Prop("errorNumber", Coalesce(Get(err, "number"), Num(0.0))),
     Prop("errorSeverity", Coalesce(Get(err, "severity"), Num(0.0))),
     Prop("errorState", Coalesce(Get(err, "state"), Num(0.0))),
     Prop("errorProcedure", Coalesce(Get(err, "procedure"), Str(""))),
     Prop("errorLine", Coalesce(Get(err, "lineNumber"), Num(0.0))),
     Prop("errorMessage", Or(Get(err, "message"), Str(Display(err, numText))))]
  }

  /** `logerror`: reading a field of a null or undefined error throws before anything is sent. */
  function LogError(spName: string, err: Value, numText: real -> string, query: Query): (r: Result<seq<Value>>)
    ensures IsNullish(err) ==>
      r == Err("Cannot read properties of " + (if err == Null then "null" else "undefined") + " (reading 'number')")
    ensures !IsNullish(err) ==> r == Execute("dbo.sp_log_error", LogErrorParams(spName, err, numText), query)
  {
    if IsNullish(err) then
      Err("Cannot read properties of " + (if err == Null then "null" else "undefined") + " (reading 'number')")
    else Execute("dbo.sp_log_error", LogErrorParams(spName, err, numText), query)
  }

  /** A thrown text is logged as its own message with every number 0 and no procedure. */
  lemma TextErrorLogged(spName: string, msg: string, numText: real -> string)
    ensures var r := LogErrorParams(spName, Str(msg), numText);
      r[1].val == Num(0.0) && r[2].val == Num(0.0) && r[3].val == Num(0.0)
      && r[4].val == Str("") && r[5].val == Num(0.0) && r[6].val == Str(msg)
  {
    var e := Str(msg);
    assert Get(e, "number") == Undefined by {
      NotIndex("number");
    }
    assert Get(e, "severity") == Undefined by {
      NotIndex("severity");
    }
    assert Get(e, "state") == Undefined by {
      NotIndex("state");
    }
    assert Get(e, "procedure") == Undefined by {
      NotIndex("procedure");
    }
    assert Get(e, "lineNumber") == Undefined by {
      NotIndex("lineNumber");
    }
    assert Get(e, "message") == Undefined by {
      NotIndex("message");
    }
  }

  /** A key that starts with a letter is not an index. */
  lemma NotIndex(k: string)
    requires |k| > 0 && 'a' <= k[0] <= 'z'
    ensures Decimal.ParseCanonical(k).None?
  {
    assert !Decimal.IsDigit(k[0]);
  }
}
