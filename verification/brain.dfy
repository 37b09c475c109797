/**
 * The query router of the assistant: a registry of modules, a flat priority-ordered
 * list of (compiled pattern, handler) pairs, and a first-match scan over that list
 * that falls through to the plain LLM gateway.
 *
 * Regular expressions are not interpreted: `search(pattern, query)` stands for a
 * case-insensitive search of the compiled pattern anywhere in the query, and
 * `compiles(pattern)` for whether the pattern compiles. `invoke(handler, query)` is
 * what a handler returns when called with the query.
 */
module Brain {
  import opened Wrappers
  import opened Outcomes
  import opened Gateway

  /** One element of the shared match list: a compiled pattern and the handler it fires. */
  datatype Entry = Entry(pattern: string, handler: Handler)

  /** A registry entry: the pattern strings as given and the handler. */
  datatype Module = Module(patterns: seq<string>, handler: Handler)

  /** The entries a registration appends for `patterns`, one per pattern, in order. */
  function Pairs(patterns: seq<string>, handler: Handler): (es: seq<Entry>)
    ensures |es| == |patterns|
    ensures forall k :: 0 <= k < |patterns| ==> es[k] == Entry(patterns[k], handler)
  {
    if patterns == [] then [] else [Entry(patterns[0], handler)] + Pairs(patterns[1..], handler)
  }

  /** Extending the registered prefix by one pattern appends exactly its entry. */
  lemma PairsExtend(patterns: seq<string>, i: nat, handler: Handler)
    requires i < |patterns|
    ensures Pairs(patterns[..i + 1], handler) == Pairs(patterns[..i], handler) + [Entry(patterns[i], handler)]
  {
  }

  /** The index of the first pattern that does not compile, or |patterns| if all do. */
  function FirstInvalid(patterns: seq<string>, compiles: string -> bool): (k: nat)
    ensures k <= |patterns|
    ensures forall j :: 0 <= j < k ==> compiles(patterns[j])
    ensures k < |patterns| ==> !compiles(patterns[k])
  {
    if patterns == [] then 0
    else if !compiles(patterns[0]) then 0
    else 1 + FirstInvalid(patterns[1..], compiles)
  }

  /** Entry `i` matches the query and no earlier entry does. */
  predicate FirstHit(entries: seq<Entry>, query: string, search: (string, string) -> bool, i: int)
  {
    && 0 <= i < |entries|
    && search(entries[i].pattern, query)
    && forall j :: 0 <= j < i ==> !search(entries[j].pattern, query)
  }

  /** The lowest-index entry whose pattern matches the query, if any. */
  function FirstMatch(entries: seq<Entry>, query: string, search: (string, string) -> bool): (r: Option<nat>)
    ensures r.Some? ==> FirstHit(entries, query, search, r.value)
    ensures r.None? ==> forall j :: 0 <= j < |entries| ==> !search(entries[j].pattern, query)
  {
    if entries == [] then None
    else if search(entries[0].pattern, query) then Some(0)
    else
      match FirstMatch(entries[1..], query, search)
      case None => None
      case Some(i) => Some(i + 1)
  }

  /**
   * What routing `query` against `entries` yields, when the plain gateway would
   * receive `reply`.
   */
  function Route(entries: seq<Entry>, query: string, search: (string, string) -> bool,
                    invoke: (Handler, string) -> Response, reply: Reply): (r: Outcome)
    ensures r.Command? <==> exists j :: 0 <= j < |entries| && search(entries[j].pattern, query)
    ensures forall i :: FirstHit(entries, query, search, i) ==>
      r == Command(entries[i].handler, invoke(entries[i].handler, query))
    ensures (forall j :: 0 <= j < |entries| ==> !search(entries[j].pattern, query)) ==>
      r == RouteToLlm(reply)
    ensures !r.FunctionCall?
  {
    match FirstMatch(entries, query, search)
    case Some(i) => Command(entries[i].handler, invoke(entries[i].handler, query))
    case None => RouteToLlm(reply)
  }

  /** The number of patterns the scan tests before it stops. */
  function Tested(entries: seq<Entry>, query: string, search: (string, string) -> bool): nat
  {
    match FirstMatch(entries, query, search)
    case Some(i) => i + 1
    case None => |entries|
  }

  class Brain {
    /** Module name to its last registration. */
    var commandRegistry: map<string, Module>
    /** Every pattern ever registered, in registration order, which is match priority. */
    var commandPatterns: seq<Entry>

    /** A new router has no modules and no patterns. */
    constructor ()
      ensures commandRegistry == map[] && commandPatterns == []
    {
      commandRegistry := map[];
      commandPatterns := [];
    }

    /**
     * Registers `moduleName`. The registry entry is written first, replacing any earlier
     * one; then one entry per pattern is appended, in order, without removing entries of
     * an earlier registration of the same name. If pattern k does not compile, the call
     * stops there and reports k, leaving the registry entry and patterns[..k] in place.
     */
    method RegisterModule(moduleName: string, patterns: seq<string>, handler: Handler,
                          compiles: string -> bool) returns (invalidAt: Option<nat>)
      modifies this
      ensures commandRegistry == old(commandRegistry)[moduleName := Module(patterns, handler)]
      ensures var k := FirstInvalid(patterns, compiles);
        && commandPatterns == old(commandPatterns) + Pairs(patterns[..k], handler)
        && invalidAt == (if k < |patterns| then Some(k) else None)
    {
      commandRegistry := commandRegistry[moduleName := Module(patterns, handler)];
      var i := 0;
      while i < |patterns|
        invariant 0 <= i <= |patterns|
        invariant commandRegistry == old(commandRegistry)[moduleName := Module(patterns, handler)]
        invariant forall j :: 0 <= j < i ==> compiles(patterns[j])
        invariant commandPatterns == old(commandPatterns) + Pairs(patterns[..i], handler)
      {
        if !compiles(patterns[i]) {
          assert FirstInvalid(patterns, compiles) == i;
          return Some(i);
        }
        PairsExtend(patterns, i, handler);
        commandPatterns := commandPatterns + [Entry(patterns[i], handler)];
        i := i + 1;
      }
      assert patterns[..i] == patterns;
      assert FirstInvalid(patterns, compiles) == |patterns|;
      return None;
    }

    /**
     * Routes `query`: the first entry whose pattern matches wins and its handler answers
     * the unmodified query; if none matches, the plain gateway's outcome is returned.
     * `tested` counts the patterns searched: none after the winning one.
     */
    method ProcessQuery(query: string, search: (string, string) -> bool,
                           invoke: (Handler, string) -> Response, reply: Reply)
      returns (outcome: Outcome, ghost tested: nat)
      ensures outcome == Route(commandPatterns, query, search, invoke, reply)
      ensures tested == Tested(commandPatterns, query, search)
    {
      var i := 0;
      tested := 0;
      while i < |commandPatterns|
        invariant 0 <= i <= |commandPatterns|
        invariant tested == i
        invariant forall j :: 0 <= j < i ==> !search(commandPatterns[j].pattern, query)
      {
        var entry := commandPatterns[i];
        tested := tested + 1;
        if search(entry.pattern, query) {
          assert FirstHit(commandPatterns, query, search, i);
          return Command(entry.handler, invoke(entry.handler, query)), tested;
        }
        i := i + 1;
      }
      return RouteToLlm(reply), tested;
    }
  }

  /**
   * Appending entries never changes a match already found in the old list; a query
   * the old list does not match goes to the first match among the new entries.
   */
  lemma FirstMatchAppend(entries: seq<Entry>, extra: seq<Entry>, query: string,
                         search: (string, string) -> bool)
    ensures FirstMatch(entries + extra, query, search) ==
      match FirstMatch(entries, query, search)
      case Some(i) => Some(i)
      case None =>
        match FirstMatch(extra, query, search)
        case Some(j) => Some(|entries| + j)
        case None => None
  {
    var all := entries + extra;
    match FirstMatch(entries, query, search)
    case Some(i) =>
      assert FirstHit(all, query, search, i);
    case None =>
      match FirstMatch(extra, query, search)
      case Some(j) =>
        assert FirstHit(all, query, search, |entries| + j);
      case None =>
        assert forall j :: 0 <= j < |all| ==> !search(all[j].pattern, query);
  }

  /**
   * Registration order is match priority: once an entry claims a query, later
   * registrations, including a re-registration of the same module name with a new
   * handler, leave its routing unchanged.
   */
  lemma RegistrationKeepsClaimedRoute(entries: seq<Entry>, patterns: seq<string>, handler: Handler,
                                         query: string, search: (string, string) -> bool,
                                         invoke: (Handler, string) -> Response, reply: Reply, i: nat)
    requires FirstHit(entries, query, search, i)
    ensures Route(entries + Pairs(patterns, handler), query, search, invoke, reply) ==
      Command(entries[i].handler, invoke(entries[i].handler, query))
  {
    FirstMatchAppend(entries, Pairs(patterns, handler), query, search);
  }

  /**
   * A query no earlier entry claims is answered by the newly registered handler when one
   * of the new patterns matches it, and by the plain gateway otherwise.
   */
  lemma RegistrationClaimsUnclaimedRoute(entries: seq<Entry>, patterns: seq<string>, handler: Handler,
                                            query: string, search: (string, string) -> bool,
                                            invoke: (Handler, string) -> Response, reply: Reply)
    requires forall j :: 0 <= j < |entries| ==> !search(entries[j].pattern, query)
    ensures Route(entries + Pairs(patterns, handler), query, search, invoke, reply) ==
      if exists k :: 0 <= k < |patterns| && search(patterns[k], query)
      then Command(handler, invoke(handler, query))
      else RouteToLlm(reply)
  {
    var extra := Pairs(patterns, handler);
    FirstMatchAppend(entries, extra, query, search);
    if exists k :: 0 <= k < |patterns| && search(patterns[k], query) {
      var k :| 0 <= k < |patterns| && search(patterns[k], query);
      assert search(extra[k].pattern, query);
    }
  }
}
