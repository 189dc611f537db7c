/**
 * The top-users data hook: five pieces of view state (`loading`, `topUsers`,
 * `startTimestamp`, `endTimestamp`, `limit`) and the fetch that fills
 * `topUsers` from the `/api/log/top_users` endpoint. The HTTP executor is a
 * total function from the request path to its outcome; the error notifier
 * is an object that records the messages it is asked to show.
 */
module TopUsersData {
  import opened Wrappers
  import opened NumberText

  /** One row of the response, with the field names as transmitted. */
  datatype TopUser = TopUser(
    username: string,
    remainingQuota: string,  // `remaining_quota`, as text: it is read with parseInt
    totalQuota: string,      // `total_quota`, as text: it is read with parseInt
    usedQuota: int           // `used_quota`: consumption inside the selected window
  )

  /** The response body `{success, message, data}`; `data` may be absent. */
  datatype Envelope = Envelope(success: bool, message: string, data: Option<seq<TopUser>>)

  /** What the awaited request yields: a response body, or a thrown error and its `message`. */
  datatype Outcome = Responded(envelope: Envelope) | Thrown(message: string)

  const DefaultLimit := 10
  const TopUsersPath := "/api/log/top_users?"

  /** One `name=value` entry of the query. */
  datatype QueryParam = QueryParam(name: string, value: int)

  /** The three possible parameters in the order they are appended. */
  function Candidates(startTimestamp: int, endTimestamp: int, limit: int): seq<QueryParam> {
    [QueryParam("start_timestamp", startTimestamp),
     QueryParam("end_timestamp", endTimestamp),
     QueryParam("limit", limit)]
  }

  /** The entries of `ps` with a positive value, in their original order. */
  function KeepPositive(ps: seq<QueryParam>): (r: seq<QueryParam>)
    ensures |r| <= |ps|
    ensures forall p :: p in r <==> p in ps && p.value > 0
  {
    if ps == [] then []
    else (if ps[0].value > 0 then [ps[0]] else []) + KeepPositive(ps[1..])
  }

  /** The query the fetch sends: every positive field, in the fixed order. */
  function QueryParams(startTimestamp: int, endTimestamp: int, limit: int): (r: seq<QueryParam>)
    ensures |r| <= 3
    ensures forall p :: p in r ==> p.value > 0
  {
    KeepPositive(Candidates(startTimestamp, endTimestamp, limit))
  }

  /** `URLSearchParams.toString()`: `name=value` pairs joined by `&`. */
  function QueryString(ps: seq<QueryParam>): (q: string)
    ensures ps == [] <==> q == []
  {
    if ps == [] then []
    else
      var entry := ps[0].name + "=" + IntString(ps[0].value);
      if |ps| == 1 then entry else entry + "&" + QueryString(ps[1..])
  }

  /** The path requested for the given state. */
  function RequestPath(startTimestamp: int, endTimestamp: int, limit: int): (path: string)
    ensures |path| >= |TopUsersPath| && path[..|TopUsersPath|] == TopUsersPath
    ensures path == TopUsersPath <==> startTimestamp <= 0 && endTimestamp <= 0 && limit <= 0
  {
    TopUsersPath + QueryString(QueryParams(startTimestamp, endTimestamp, limit))
  }

  /**
   * Each field is sent exactly when it is positive, the three appear in the
   * order start, end, limit, and with all three zero nothing is sent.
   */
  lemma QueryParamsPresence(startTimestamp: int, endTimestamp: int, limit: int)
    ensures var ps := QueryParams(startTimestamp, endTimestamp, limit);
      (QueryParam("start_timestamp", startTimestamp) in ps <==> startTimestamp > 0)
      && (QueryParam("end_timestamp", endTimestamp) in ps <==> endTimestamp > 0)
      && (QueryParam("limit", limit) in ps <==> limit > 0)
      && (forall p :: p in ps ==> p in Candidates(startTimestamp, endTimestamp, limit))
    ensures QueryParams(startTimestamp, endTimestamp, limit)
      == (if startTimestamp > 0 then [QueryParam("start_timestamp", startTimestamp)] else [])
       + (if endTimestamp > 0 then [QueryParam("end_timestamp", endTimestamp)] else [])
       + (if limit > 0 then [QueryParam("limit", limit)] else [])
    ensures startTimestamp <= 0 && endTimestamp <= 0 && limit <= 0
      ==> QueryParams(startTimestamp, endTimestamp, limit) == []
  {
    var c := Candidates(startTimestamp, endTimestamp, limit);
    assert c[1..][1..][1..] == [];
    assert KeepPositive(c[1..][1..]) == (if limit > 0 then [c[2]] else []);
    assert KeepPositive(c[1..]) == (if endTimestamp > 0 then [c[1]] else []) + KeepPositive(c[1..][1..]);
    assert KeepPositive(c) == (if startTimestamp > 0 then [c[0]] else []) + KeepPositive(c[1..]);
  }

  /** With no start, an end `t` and the limit 10, only the end and the limit are sent. */
  lemma QueryStringExample(t: int)
    requires t > 0
    ensures RequestPath(0, t, 10) == TopUsersPath + "end_timestamp=" + IntString(t) + "&limit=10"
  {
    QueryParamsPresence(0, t, 10);
    var ps := [QueryParam("end_timestamp", t), QueryParam("limit", 10)];
    assert ps[1..] == [QueryParam("limit", 10)];
    assert DecimalString(10) == "10" by {
      assert DecimalString(1) == "1";
    }
    assert QueryParams(0, t, 10) == ps;
    assert QueryString(ps[1..]) == "limit=10";
    assert QueryString(ps) == "end_timestamp=" + IntString(t) + "&" + "limit=10";
  }

  /** The position of the first `c` in `s`, or `|s|` when there is none. */
  function IndexOf(s: string, c: char): (k: nat)
    ensures k <= |s|
    ensures forall i :: 0 <= i < k ==> s[i] != c
    ensures k < |s| ==> s[k] == c
  {
    if s == [] || s[0] == c then 0 else 1 + IndexOf(s[1..], c)
  }

  lemma {:induction false} IndexOfAfterFree(a: string, b: string, c: char)
    requires forall i :: 0 <= i < |a| ==> a[i] != c
    requires b == [] || b[0] == c
    ensures IndexOf(a + b, c) == |a|
  {
    if a == [] {
      assert a + b == b;
    } else {
      assert (a + b)[1..] == a[1..] + b;
      IndexOfAfterFree(a[1..], b, c);
    }
  }

  /** Reads one `name=value` entry back; the value is read with `parseInt` (0 if absent). */
  function DecodeEntry(e: string): QueryParam {
    var k := IndexOf(e, '=');
    QueryParam(e[..k], ParseIntOrZero(if k < |e| then e[k + 1..] else ""))
  }

  /** Reads a query text back into its entries, splitting at each `&`. */
  function SplitQuery(q: string): seq<QueryParam>
    decreases |q|
  {
    if q == [] then []
    else
      var k := IndexOf(q, '&');
      [DecodeEntry(q[..k])] + (if k < |q| then SplitQuery(q[k + 1..]) else [])
  }

  /** A parameter name that needs no escaping between `=` and `&`. */
  predicate PlainName(name: string) {
    forall i :: 0 <= i < |name| ==> name[i] != '=' && name[i] != '&'
  }

  lemma IntStringIsPlain(v: int)
    ensures forall i :: 0 <= i < |IntString(v)| ==> IntString(v)[i] != '=' && IntString(v)[i] != '&'
  {
    if v < 0 {
      assert forall i :: 1 <= i < |IntString(v)| ==> IntString(v)[i] == DecimalString(-v)[i - 1];
    }
  }

  lemma DecodeEntryOf(p: QueryParam)
    requires PlainName(p.name)
    ensures DecodeEntry(p.name + "=" + IntString(p.value)) == p
  {
    var e := p.name + "=" + IntString(p.value);
    assert e[|p.name|] == '=';
    IndexOfAfterFree(p.name, "=" + IntString(p.value), '=');
    assert p.name + "=" + IntString(p.value) == p.name + ("=" + IntString(p.value));
    assert e[..|p.name|] == p.name;
    assert e[|p.name| + 1..] == IntString(p.value);
    ParseIntOfIntString(p.value);
  }

  /** The text of one entry. */
  function EntryText(p: QueryParam): string {
    p.name + "=" + IntString(p.value)
  }

  lemma EntryTextIsPlain(p: QueryParam)
    requires PlainName(p.name)
    ensures forall i :: 0 <= i < |EntryText(p)| ==> EntryText(p)[i] != '&'
  {
    var e := EntryText(p);
    IntStringIsPlain(p.value);
    forall i | 0 <= i < |e| ensures e[i] != '&' {
      if i > |p.name| {
        assert e[i] == IntString(p.value)[i - |p.name| - 1];
      }
    }
  }

  /** The last entry of a query. */
  lemma SplitQueryLast(entry: string)
    requires entry != [] && forall i :: 0 <= i < |entry| ==> entry[i] != '&'
    ensures SplitQuery(entry) == [DecodeEntry(entry)]
  {
    IndexOfAfterFree(entry, [], '&');
    assert entry + [] == entry;
    assert entry[..|entry|] == entry;
  }

  /** An entry followed by `&` and the rest of the query. */
  lemma SplitQueryCons(entry: string, rest: string)
    requires forall i :: 0 <= i < |entry| ==> entry[i] != '&'
    ensures SplitQuery(entry + "&" + rest) == [DecodeEntry(entry)] + SplitQuery(rest)
  {
    var q := entry + "&" + rest;
    assert q == entry + ("&" + rest);
    IndexOfAfterFree(entry, "&" + rest, '&');
    assert q[..|entry|] == entry;
    assert q[|entry| + 1..] == rest;
  }

  /** Reading the query text back gives the parameters it was written from. */
  lemma {:induction false} SplitQueryString(ps: seq<QueryParam>)
    requires forall p :: p in ps ==> PlainName(p.name)
    ensures SplitQuery(QueryString(ps)) == ps
  {
    if ps != [] {
      var p := ps[0];
      EntryTextIsPlain(p);
      DecodeEntryOf(p);
      assert EntryText(p) == p.name + "=" + IntString(p.value);
      if |ps| == 1 {
        SplitQueryLast(EntryText(p));
      } else {
        SplitQueryCons(EntryText(p), QueryString(ps[1..]));
        SplitQueryString(ps[1..]);
        assert ps == [p] + ps[1..];
      }
    }
  }

  /** The query the fetch sends reads back as exactly its parameters. */
  lemma RequestQueryReadsBack(startTimestamp: int, endTimestamp: int, limit: int)
    ensures SplitQuery(QueryString(QueryParams(startTimestamp, endTimestamp, limit)))
      == QueryParams(startTimestamp, endTimestamp, limit)
  {
    var ps := QueryParams(startTimestamp, endTimestamp, limit);
    QueryParamsPresence(startTimestamp, endTimestamp, limit);
    assert forall p :: p in ps ==> PlainName(p.name);
    SplitQueryString(ps);
  }

  /** The error notifier: a log of the messages shown. */
  class Notifier {
    var shown: seq<string>

    constructor ()
      ensures shown == []
    {
      shown := [];
    }

    method ShowError(message: string)
      modifies this
      ensures shown == old(shown) + [message]
    {
      shown := shown + [message];
    }
  }

  class TopUsersData {
    var loading: bool
    var topUsers: seq<TopUser>
    var startTimestamp: int
    var endTimestamp: int
    var limit: int

    constructor ()
      ensures !loading && topUsers == []
      ensures startTimestamp == 0 && endTimestamp == 0 && limit == DefaultLimit
    {
      loading := false;
      topUsers := [];
      startTimestamp := 0;
      endTimestamp := 0;
      limit := DefaultLimit;
    }

    method SetStartTimestamp(v: int)
      modifies this`startTimestamp
      ensures startTimestamp == v
    {
      startTimestamp := v;
    }

    method SetEndTimestamp(v: int)
      modifies this`endTimestamp
      ensures endTimestamp == v
    {
      endTimestamp := v;
    }

    method SetLimit(v: int)
      modifies this`limit
      ensures limit == v
    {
      limit := v;
    }

    /** Appends each positive field to an initially empty parameter list. */
    method BuildParams() returns (params: seq<QueryParam>)
      ensures params == QueryParams(startTimestamp, endTimestamp, limit)
    {
      params := [];
      if startTimestamp > 0 {
        params := params + [QueryParam("start_timestamp", startTimestamp)];
      }
      if endTimestamp > 0 {
        params := params + [QueryParam("end_timestamp", endTimestamp)];
      }
      if limit > 0 {
        params := params + [QueryParam("limit", limit)];
      }
      QueryParamsPresence(startTimestamp, endTimestamp, limit);
    }

    /** The part of the fetch before the request is awaited: raises `loading`, returns the path. */
    method BeginFetch() returns (path: string)
      modifies this`loading
      ensures loading
      ensures path == RequestPath(startTimestamp, endTimestamp, limit)
    {
      loading := true;
      var params := BuildParams();
      path := TopUsersPath + QueryString(params);
    }

    /**
     * The part after the request settles: a successful body replaces the list
     * (an absent `data` by the empty list), a failed body or a thrown error
     * keeps the list and shows its message once; `loading` is lowered on
     * every path.
     */
    method Settle(outcome: Outcome, notifier: Notifier)
      modifies this`topUsers, this`loading, notifier
      ensures !loading
      ensures outcome.Responded? && outcome.envelope.success ==>
        topUsers == outcome.envelope.data.GetOr([]) && notifier.shown == old(notifier.shown)
      ensures outcome.Responded? && !outcome.envelope.success ==>
        topUsers == old(topUsers) && notifier.shown == old(notifier.shown) + [outcome.envelope.message]
      ensures outcome.Thrown? ==>
        topUsers == old(topUsers) && notifier.shown == old(notifier.shown) + [outcome.message]
    {
      match outcome {
        case Responded(envelope) =>
          if envelope.success {
            topUsers := envelope.data.GetOr([]);
          } else {
            notifier.ShowError(envelope.message);
          }
        case Thrown(message) =>
          notifier.ShowError(message);
      }
      loading := false;
    }

    /**
     * `fetchTopUsers`: the request goes to the path built from the current
     * state; only `loading` and `topUsers` (and the notifier) change.
     */
    method FetchTopUsers(api: string -> Outcome, notifier: Notifier)
      modifies this`topUsers, this`loading, notifier
      ensures !loading
      ensures startTimestamp == old(startTimestamp) && endTimestamp == old(endTimestamp) && limit == old(limit)
      ensures var outcome := api(RequestPath(startTimestamp, endTimestamp, limit));
        match outcome
        case Responded(envelope) =>
          if envelope.success then
            topUsers == envelope.data.GetOr([]) && notifier.shown == old(notifier.shown)
          else
            topUsers == old(topUsers) && notifier.shown == old(notifier.shown) + [envelope.message]
        case Thrown(message) =>
          topUsers == old(topUsers) && notifier.shown == old(notifier.shown) + [message]
    {
      var path := BeginFetch();
      var outcome := api(path);
      Settle(outcome, notifier);
    }
  }

  /** A client run: a failed body after a successful one keeps the earlier rows. */
  method FetchScenario(rows: seq<TopUser>) returns (kept: seq<TopUser>, shown: seq<string>)
    ensures kept == rows && shown == ["boom"]
  {
    var hook := new TopUsersData();
    var notifier := new Notifier();
    hook.Settle(Responded(Envelope(true, "", Some(rows))), notifier);
    hook.Settle(Responded(Envelope(false, "boom", None)), notifier);
    assert !hook.loading;
    kept, shown := hook.topUsers, notifier.shown;
  }
}
