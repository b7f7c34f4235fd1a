/**
  The configuration values the other modules pass around: checks, VIPs, the
  `checks_policy` expression and the announce policy of a VIP, together with the
  facts that config validation guarantees about them.
 */
module Config {

  datatype Option<+T> = None | Some(value: T)

  /** One health check. `rest` stands for the type-specific parameters, which are only ever compared. */
  datatype Check = Check(given: string, kind: string, interval: Option<nat>,
                         rise: Option<int>, fall: Option<int>, rest: int)
  {
    function EffectiveName(): string { if given != "" then given else kind }
    function Rise(): int { if rise.Some? then rise.value else 1 }
    function Fall(): int { if fall.Some? then fall.value else 3 }
    /** Nanoseconds between two runs, one second by default. */
    function Interval(): nat { if interval.Some? then interval.value else 1_000_000_000 }
  }

  /** A boolean expression over check names. */
  datatype Expr = Lit(b: bool) | Name(name: string) | Not(e: Expr) | And(l: Expr, r: Expr) | Or(l: Expr, r: Expr)

  function FreeNames(e: Expr): set<string> {
    match e
    case Lit(_) => {}
    case Name(n) => {n}
    case Not(e1) => FreeNames(e1)
    case And(l, r) => FreeNames(l) + FreeNames(r)
    case Or(l, r) => FreeNames(l) + FreeNames(r)
  }

  /** Names absent from `healthy` count as unhealthy. */
  predicate Truth(e: Expr, healthy: set<string>) {
    match e
    case Lit(b) => b
    case Name(n) => n in healthy
    case Not(e1) => !Truth(e1, healthy)
    case And(l, r) => Truth(l, healthy) && Truth(r, healthy)
    case Or(l, r) => Truth(l, healthy) || Truth(r, healthy)
  }

  predicate NegationFree(e: Expr) {
    match e
    case Lit(_) => true
    case Name(_) => true
    case Not(_) => false
    case And(l, r) => NegationFree(l) && NegationFree(r)
    case Or(l, r) => NegationFree(l) && NegationFree(r)
  }

  /** `Unset` is the empty string, which means `all`. */
  datatype ChecksPolicy = Unset | All | Any | Expression(e: Expr)

  datatype Announce = Announce(prepend: Option<int>, communities: seq<string>)

  /** `fail_action`; any other text behaves like a withdraw and is rejected by validation. */
  datatype FailAction = OnFailWithdraw | OnFailLower | OnFailOther(text: string)

  datatype Routing = Routing(failAction: FailAction, drainFile: string, announce: Option<Announce>,
    lower: Option<Announce>)

  datatype Vip = Vip(name: string, prefix: string, check: Check, checks: seq<Check>, checksPolicy: ChecksPolicy,
                     routing: Routing, requireLocal: bool, localInterface: string)
  {
    function CheckList(): seq<Check> { if |checks| > 0 then checks else [check] }
    function Checks(): map<string, Check> { ByName(CheckList()) }
    function Guard(): (bool, string) { (requireLocal, localInterface) }
  }

  /** The checks of a list keyed by effective name; a later check wins over an earlier one. */
  function ByName(list: seq<Check>): map<string, Check> {
    if list == [] then map[] else
    var last := list[|list| - 1];
    ByName(list[..|list| - 1])[last.EffectiveName() := last]
  }

  function Names(list: seq<Check>): seq<string> {
    seq(|list|, i requires 0 <= i < |list| => list[i].EffectiveName())
  }

  predicate DistinctNames(list: seq<Check>) {
    forall i, j :: 0 <= i < j < |list| ==> list[i].EffectiveName() != list[j].EffectiveName()
  }

  /** `ByName` has exactly the names of the list as keys and, when they are distinct, exactly its checks as values. */
  lemma {:induction false} ByNameIs(list: seq<Check>)
    ensures forall n :: n in ByName(list) <==> n in Names(list)
    ensures forall n :: n in ByName(list) ==> ByName(list)[n] in list && ByName(list)[n].EffectiveName() == n
    ensures DistinctNames(list) ==>
      forall c :: c in list ==> c.EffectiveName() in ByName(list) && ByName(list)[c.EffectiveName()] == c
  {
    if list != [] {
      var k := |list| - 1;
      ByNameIs(list[..k]);
      assert Names(list) == Names(list[..k]) + [list[k].EffectiveName()];
      assert list == list[..k] + [list[k]];
      if DistinctNames(list) {
        forall c | c in list
          ensures c.EffectiveName() in ByName(list) && ByName(list)[c.EffectiveName()] == c
        {
          var i :| 0 <= i < |list| && list[i] == c;
          if i < k {
            assert list[..k][i] == c;
          }
        }
      }
    }
  }

  /** `CompileChecksPolicy`: an expression compiles when it names known checks only. */
  predicate Compiles(p: ChecksPolicy, names: seq<string>) {
    p.Expression? ==> forall n :: n in FreeNames(p.e) ==> n in names
  }

  /** What config validation establishes about a VIP and the other modules rely on. */
  predicate ValidVip(v: Vip) {
    && v.name != ""
    && DistinctNames(v.CheckList())
    && (forall c :: c in v.CheckList() ==> c.Rise() >= 1 && c.Fall() >= 1)
    && Compiles(v.checksPolicy, Names(v.CheckList()))
    && ValidRouting(v.routing)
  }

  predicate ValidRouting(r: Routing) {
    && !r.failAction.OnFailOther?
    && (r.announce.Some? && r.announce.value.prepend.Some? ==> 0 <= r.announce.value.prepend.value <= 16)
    && (r.lower.Some? && r.lower.value.prepend.Some? ==> 1 <= r.lower.value.prepend.value <= 16)
  }

  predicate DistinctVips(vips: seq<Vip>) {
    forall i, j :: 0 <= i < j < |vips| ==> vips[i].name != vips[j].name
  }

  /** The VIP list of a validated file: every VIP valid, names and prefixes unique. */
  predicate ValidVips(vips: seq<Vip>) {
    && (forall v :: v in vips ==> ValidVip(v))
    && DistinctVips(vips)
    && (forall i, j :: 0 <= i < j < |vips| ==> vips[i].prefix != vips[j].prefix)
  }

  lemma ValidCheck(v: Vip, n: string)
    requires ValidVip(v) && n in v.Checks()
    ensures v.Checks()[n].EffectiveName() == n && v.Checks()[n].Rise() >= 1 && v.Checks()[n].Fall() >= 1
  {
    ByNameIs(v.CheckList());
  }
}
