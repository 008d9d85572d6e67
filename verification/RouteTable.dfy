// Route rules as sing-box reads them: the first rule that matches decides, except
// that sniff and the like only prepare the flow for the rules after it.
module RouteTable {
  import opened Wrappers

  // `Other` stands for the conditions the translator never writes itself.
  datatype Test = Anything | DnsProtocol | PrivateIp | DomainSuffix(suffixes: seq<string>) | Other(id: int)

  datatype Cond = Cond(clashMode: Option<string>, ruleSets: seq<string>, test: Test)

  datatype RouteRule =
    | Plain(cond: Cond, outbound: Option<string>, action: Option<string>)
    | Logical(mode: string, subs: seq<Cond>, outbound: Option<string>, action: Option<string>)

  datatype Flow = Flow(mode: string, dns: bool, id: int)

  datatype Env = Env(inSet: (string, Flow) -> bool, holds: (Test, Flow) -> bool)

  datatype Verdict = To(outbound: string) | Act(action: string)

  const PREPARING: set<string> := {"sniff", "resolve", "route-options"}

  predicate TestHolds(env: Env, test: Test, flow: Flow) {
    match test
    case Anything => true
    case DnsProtocol => flow.dns
    case _ => env.holds(test, flow)
  }

  predicate SomeSet(env: Env, tags: seq<string>, flow: Flow) {
    exists tag | tag in tags :: env.inSet(tag, flow)
  }

  predicate Holds(env: Env, c: Cond, flow: Flow) {
    && (c.clashMode == None || c.clashMode == Some(flow.mode))
    && (c.ruleSets == [] || SomeSet(env, c.ruleSets, flow))
    && TestHolds(env, c.test, flow)
  }

  predicate AllHold(env: Env, subs: seq<Cond>, flow: Flow) {
    forall c | c in subs :: Holds(env, c, flow)
  }

  predicate AnyHolds(env: Env, subs: seq<Cond>, flow: Flow) {
    exists c | c in subs :: Holds(env, c, flow)
  }

  predicate Matches(env: Env, r: RouteRule, flow: Flow) {
    match r
    case Plain(cond, _, _) => Holds(env, cond, flow)
    case Logical(mode, subs, _, _) =>
      if mode == "and" then AllHold(env, subs, flow) else AnyHolds(env, subs, flow)
  }

  // Outbound names that mean a rejection: REJECT in the input, none for sing-box.
  const INPUT_REJECTS: set<string> := {"REJECT"}
  const NO_REJECTS: set<string> := {}

  // What a matching rule does.
  function Read(rejects: set<string>, r: RouteRule): Verdict {
    if r.outbound.Some? && r.outbound.value in rejects then Act("reject")
    else
      match r.action
      case None => if r.outbound.Some? then To(r.outbound.value) else Act("")
      case Some(a) => if a == "route" && r.outbound.Some? then To(r.outbound.value) else Act(a)
  }

  predicate Decides(env: Env, rejects: set<string>, r: RouteRule, flow: Flow) {
    Matches(env, r, flow) && !(Read(rejects, r).Act? && Read(rejects, r).action in PREPARING)
  }

  function Choose(env: Env, rejects: set<string>, rules: seq<RouteRule>, flow: Flow): Option<Verdict> {
    if rules == [] then None
    else if Decides(env, rejects, rules[0], flow) then Some(Read(rejects, rules[0]))
    else Choose(env, rejects, rules[1..], flow)
  }

  // Where sing-box sends a flow in the end.
  function Route(env: Env, rules: seq<RouteRule>, final: string, flow: Flow): Verdict {
    match Choose(env, NO_REJECTS, rules, flow)
    case None => To(final)
    case Some(v) => v
  }
}
