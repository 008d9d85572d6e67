// DNS rules as sing-box reads them: first match wins. An evaluate rule does not
// decide; it asks a server and keeps the response for the match_response rules
// after it.
module DnsTable {
  import opened Wrappers

  // match_response: missing, a boolean, the tag of an evaluate rule, or another
  // JSON value.
  datatype MatchResponse = Unset | Flag(on: bool) | Label(tag: string) | Malformed

  // rule_set: missing, one tag, or a list of tags.
  datatype RuleSets = NoSets | One(tag: string) | Many(tags: seq<string>)

  // Conditions besides query_type and rule_set. `other` stands for all those the
  // translator never writes itself.
  datatype Cond = Cond(
    clashMode: Option<string>,
    domains: seq<string>,
    suffixes: seq<string>,
    other: Option<int>)

  const ANYTHING := Cond(None, [], [], None)

  datatype Rule =
    | NotARule(raw: int)
    | Rule(
        kind: string,                       // "type"
        action: string,
        server: string,
        matchResponse: MatchResponse,
        ruleSets: RuleSets,
        queryType: Option<seq<string>>,
        cond: Cond)

  type Response = int

  datatype Query = Query(mode: string, name: string, qtype: string)

  // What sing-box and the network contribute: which rule-sets and other
  // conditions hold of a query, given a response if there is one, and what each
  // server answers.
  datatype Env = Env(
    inSet: (string, Query, Option<Response>) -> bool,
    holds: (int, Query, Option<Response>) -> bool,
    answer: (string, Query) -> Response)

  const ADDRESS_QUERY_TYPES: seq<string> := ["A", "AAAA", "HTTPS"]

  predicate Enabled(m: MatchResponse) {
    (m.Flag? && m.on) || (m.Label? && m.tag != "")
  }

  function SetTags(sets: RuleSets): seq<string> {
    match sets
    case NoSets => []
    case One(tag) => [tag]
    case Many(tags) => tags
  }

  predicate NameMatches(cond: Cond, name: string) {
    || (cond.domains == [] && cond.suffixes == [])
    || name in cond.domains
    || exists s | s in cond.suffixes :: HasSuffix(name, s)
  }

  predicate CondHolds(env: Env, cond: Cond, q: Query, response: Option<Response>) {
    && (cond.clashMode == None || cond.clashMode == Some(q.mode))
    && NameMatches(cond, q.name)
    && (cond.other == None || env.holds(cond.other.value, q, response))
  }

  predicate SetsHold(env: Env, sets: RuleSets, q: Query, response: Option<Response>) {
    SetTags(sets) == [] || exists tag | tag in SetTags(sets) :: env.inSet(tag, q, response)
  }

  predicate TypeHolds(queryType: Option<seq<string>>, q: Query) {
    queryType == None || q.qtype in queryType.value
  }

  predicate RuleHolds(env: Env, r: Rule, q: Query, response: Option<Response>)
    requires r.Rule?
  {
    TypeHolds(r.queryType, q) && CondHolds(env, r.cond, q, response) && SetsHold(env, r.ruleSets, q, response)
  }

  // A rule that names a rule-set of addresses without match_response: the address
  // filter of sing-box before 1.14. Logical rules carry no filter of their own.
  predicate AddressFilter(r: Rule, ipOnly: set<string>) {
    && r.Rule? && !Enabled(r.matchResponse) && r.kind != "logical"
    && exists tag | tag in SetTags(r.ruleSets) :: tag in ipOnly
  }

  predicate AddressQuery(q: Query) {
    q.qtype in ADDRESS_QUERY_TYPES
  }

  // Whether a deciding rule matches. `kept` is the response of the last evaluate
  // rule. An address filter applies to address queries only: it asks the rule's
  // own server and looks at that response.
  predicate Decides(env: Env, ipOnly: set<string>, r: Rule, q: Query, kept: Option<Response>) {
    && r.Rule? && r.action != "evaluate"
    && (if Enabled(r.matchResponse) then kept.Some? && RuleHolds(env, r, q, kept)
        else if AddressFilter(r, ipOnly) then
          AddressQuery(q) && RuleHolds(env, r, q, Some(env.answer(r.server, q)))
        else RuleHolds(env, r, q, None))
  }

  function Keep(env: Env, r: Rule, q: Query, kept: Option<Response>): Option<Response> {
    if r.Rule? && r.action == "evaluate" && RuleHolds(env, r, q, kept) then Some(env.answer(r.server, q))
    else kept
  }

  // What the deciding rule does: its action, its server, and the conditions it
  // was written with.
  datatype Decision = Decision(action: string, server: string, cond: Cond, ruleSets: RuleSets)

  function Choose(env: Env, ipOnly: set<string>, rules: seq<Rule>, q: Query, kept: Option<Response>)
    : Option<Decision>
  {
    if rules == [] then None
    else if Decides(env, ipOnly, rules[0], q, kept) then
      Some(Decision(rules[0].action, rules[0].server, rules[0].cond, rules[0].ruleSets))
    else Choose(env, ipOnly, rules[1..], q, Keep(env, rules[0], q, kept))
  }
}
