/**
 * Runs of the whole committee: an honest lead, honest members, and an adversary
 * who owns the remaining keys and delivers any message it can put together.
 */
module OneConfig {
  import opened Basics
  import opened Governance

  datatype Network = Network(committee: Committee, lead: Key, honest: set<Key>)

  /** `tokens` are the signatures honest keys have made; `configs` what honest cores have published. */
  datatype World = World(cores: map<Key, Core>, tokens: set<Token>, configs: set<Config>)

  datatype Event =
    | Offers(content: Bytes)
    | Decodes(at: Key, proposal: Proposal, valid: bool)
    | Hears(at: Key, body: Body, signature: Signature)
    | Learns(at: Key, cfg: Config, structural: bool)

  /** The lead is honest and the dishonest committee members are fewer than the threshold. */
  predicate HonestLead(n: Network) {
    n.lead in n.honest && |Elements(n.committee.members) - n.honest| < n.committee.threshold
  }

  /** Signatures are unforgeable: an honest key's token exists only once that key made it. */
  predicate Known(n: Network, w: World, t: Token) {
    t.maker in n.honest ==> t in w.tokens
  }

  predicate KnownConfig(n: Network, w: World, cfg: Config) {
    forall s :: s in cfg.signatures ==> Known(n, w, s.bytes)
  }

  predicate Running(n: Network, w: World) {
    w.cores.Keys == n.honest && n.lead in n.honest
  }

  /** What can happen next: any deliverable message, and no bump past the last round number. */
  predicate Possible(n: Network, w: World, e: Event)
    requires Running(n, w)
  {
    match e
    case Offers(content) => w.cores[n.lead].lastContent != Some(content) ==> w.cores[n.lead].publicRound < MAX_ROUND
    case Decodes(at, p, _) => at in n.honest && Known(n, w, p.signature)
    case Hears(at, _, s) => at in n.honest && Known(n, w, s.bytes)
    case Learns(at, cfg, _) => at in n.honest && KnownConfig(n, w, cfg) && cfg.body.round <= MAX_ROUND
  }

  function Just<T>(o: Option<T>): set<T> { if o.None? then {} else {o.value} }

  function Happen(n: Network, w: World, e: Event): World
    requires Running(n, w) && Possible(n, w, e)
  {
    match e
    case Offers(content) =>
      var (k, p) := Offer(w.cores[n.lead], content);
      w.(cores := w.cores[n.lead := k], tokens := w.tokens + (if p.None? then {} else {p.value.signature}))
    case Decodes(at, p, valid) =>
      var (k, sig, cfg) := Decoded(n.committee, w.cores[at], p, valid);
      World(w.cores[at := k], w.tokens + (if sig.None? then {} else {sig.value.bytes}), w.configs + Just(cfg))
    case Hears(at, body, s) =>
      var (k, cfg) := SigReceived(n.committee, w.cores[at], body, s);
      w.(cores := w.cores[at := k], configs := w.configs + Just(cfg))
    case Learns(at, cfg, structural) =>
      w.(cores := w.cores[at := ConfigReceived(n.committee, w.cores[at], cfg, structural).0])
  }

  function Genesis(n: Network): World {
    World(map k | k in n.honest :: NewCore(k, n.lead), {}, {})
  }

  /** The world after a run, or nothing when some event could not have happened. */
  ghost function Replay(n: Network, run: seq<Event>): (o: Option<World>)
    ensures o.Some? ==> Running(n, o.value)
  {
    if run == [] then
      if n.lead in n.honest then Some(Genesis(n)) else None
    else
      var before := Replay(n, run[..|run| - 1]);
      if before.None? || !Possible(n, before.value, run[|run| - 1]) then None
      else Some(Happen(n, before.value, run[|run| - 1]))
  }

  ghost predicate Plausible(n: Network, run: seq<Event>) { Replay(n, run).Some? }

  ghost function After(n: Network, run: seq<Event>): (w: World)
    requires Plausible(n, run)
    ensures Running(n, w)
  {
    Replay(n, run).value
  }

  // ---------------------------------------------------------------- what every step keeps

  predicate CoresOk(n: Network, w: World) {
    Running(n, w) && forall k :: k in n.honest ==> w.cores[k].me == k && w.cores[k].lead == n.lead
  }

  /** A round number names one proposed content, and the latest is the lead's current pair. */
  ghost predicate ProposalsOk(n: Network, w: World)
    requires Running(n, w)
  {
    forall t :: t in w.tokens && t.statement.Propose? ==>
      t.maker == n.lead
      && t.statement.body.round <= w.cores[n.lead].publicRound
      && (t.statement.body.round == w.cores[n.lead].publicRound ==> w.cores[n.lead].lastContent == Some(t.statement.body.content))
  }

  ghost predicate OneBodyPerRound(w: World) {
    forall t, u | t in w.tokens && u in w.tokens && t.statement.Propose? && u.statement.Propose? ::
      t.statement.body.round == u.statement.body.round ==> t.statement.body == u.statement.body
  }

  /** Honest members approve only what the lead proposed. */
  ghost predicate ApprovalsOk(n: Network, w: World) {
    forall t :: t in w.tokens && t.statement.Approve? ==> Token(n.lead, Propose(t.statement.body)) in w.tokens
  }

  ghost predicate HeldOk(n: Network, w: World)
    requires Running(n, w)
  {
    forall k, body, s :: k in n.honest && body in w.cores[k].sigs && s in w.cores[k].sigs[body] ==> Known(n, w, w.cores[k].sigs[body][s])
  }

  ghost predicate ConfigsOk(n: Network, w: World) {
    forall cfg :: cfg in w.configs ==> Multisigned(n.committee, cfg) && KnownConfig(n, w, cfg)
  }

  ghost predicate Inv(n: Network, w: World) {
    CoresOk(n, w) && ProposalsOk(n, w) && OneBodyPerRound(w) && ApprovalsOk(n, w) && HeldOk(n, w) && ConfigsOk(n, w)
  }

  lemma OfferKeeps(n: Network, w: World, content: Bytes)
    requires Inv(n, w) && Possible(n, w, Offers(content))
    ensures Inv(n, Happen(n, w, Offers(content)))
  {
    var next := Happen(n, w, Offers(content));
    assert CoresOk(n, next) && ApprovalsOk(n, next);
    assert ProposalsOk(n, next);
    assert OneBodyPerRound(next);
    assert HeldOk(n, next);
    assert ConfigsOk(n, next);
  }

  lemma AddSigKnown(n: Network, w: World, k: Core, body: Body, signer: Key, t: Token)
    requires Known(n, w, t)
    requires forall b, s :: b in k.sigs && s in k.sigs[b] ==> Known(n, w, k.sigs[b][s])
    ensures var a := AddSig(k, body, signer, t);
      forall b, s :: b in a.sigs && s in a.sigs[b] ==> Known(n, w, a.sigs[b][s])
  {
  }

  lemma AssembleKnown(n: Network, w: World, k: Core, body: Body)
    requires forall b, s :: b in k.sigs && s in k.sigs[b] ==> Known(n, w, k.sigs[b][s])
    ensures var (a, cfg) := TryAssemble(n.committee, k, body);
      a.sigs == k.sigs && (cfg.Some? ==> Multisigned(n.committee, cfg.value) && KnownConfig(n, w, cfg.value))
  {
    if body in k.sigs {
      forall s | s in Assembled(k.sigs[body], body).signatures ensures Known(n, w, s.bytes) {
        assert s.signer in Sorted(k.sigs[body].Keys);
      }
    }
  }

  /** A core that approves adds one approval of its own, over a body the lead proposed. */
  lemma DecodeFacts(n: Network, w: World, at: Key, p: Proposal, valid: bool)
    requires Inv(n, w) && Possible(n, w, Decodes(at, p, valid))
    ensures var (k, sig, cfg) := Decoded(n.committee, w.cores[at], p, valid);
      k.me == at && k.lead == n.lead && k.publicRound == w.cores[at].publicRound && k.lastContent == w.cores[at].lastContent
      && (sig.None? ==> k == w.cores[at] && cfg.None?)
      && (sig.Some? ==> sig.value == Signed(at, p.body) && Token(n.lead, Propose(p.body)) in w.tokens)
  {
  }

  lemma DecodeHolds(n: Network, w: World, w': World, at: Key, p: Proposal, valid: bool)
    requires Inv(n, w) && Possible(n, w, Decodes(at, p, valid))
    requires w.tokens <= w'.tokens && Token(at, Approve(p.body)) in w'.tokens
    ensures var (k, sig, cfg) := Decoded(n.committee, w.cores[at], p, valid);
      (forall b, s :: b in k.sigs && s in k.sigs[b] ==> Known(n, w', k.sigs[b][s]))
      && (cfg.Some? ==> Multisigned(n.committee, cfg.value) && KnownConfig(n, w', cfg.value))
  {
    var k := w.cores[at];
    var raised := k.(lastAccepted := Raise(k.lastAccepted, p.body.round));
    assert forall b, s :: b in k.sigs && s in k.sigs[b] ==> Known(n, w, k.sigs[b][s]);
    AddSigKnown(n, w', raised, p.body, k.me, Token(at, Approve(p.body)));
    AssembleKnown(n, w', AddSig(raised, p.body, k.me, Token(at, Approve(p.body))), p.body);
  }

  lemma DecodeKeeps(n: Network, w: World, at: Key, p: Proposal, valid: bool)
    requires Inv(n, w) && Possible(n, w, Decodes(at, p, valid))
    ensures Inv(n, Happen(n, w, Decodes(at, p, valid)))
  {
    var next := Happen(n, w, Decodes(at, p, valid));
    DecodeFacts(n, w, at, p, valid);
    var (k, sig, cfg) := Decoded(n.committee, w.cores[at], p, valid);
    if sig.Some? {
      DecodeHolds(n, w, next, at, p, valid);
      Stepped(n, w, next, at, k, Token(at, Approve(p.body)), cfg);
    } else {
      assert next.cores == w.cores && next == w;
    }
  }

  lemma Stepped(n: Network, w: World, next: World, at: Key, k: Core, t: Token, cfg: Option<Config>)
    requires Inv(n, w) && at in n.honest
    requires next == World(w.cores[at := k], w.tokens + {t}, w.configs + Just(cfg))
    requires t.statement.Approve? && Token(n.lead, Propose(t.statement.body)) in w.tokens
    requires k.me == at && k.lead == n.lead && k.publicRound == w.cores[at].publicRound && k.lastContent == w.cores[at].lastContent
    requires forall b, s :: b in k.sigs && s in k.sigs[b] ==> Known(n, next, k.sigs[b][s])
    requires cfg.Some? ==> Multisigned(n.committee, cfg.value) && KnownConfig(n, next, cfg.value)
    ensures Inv(n, next)
  {
    assert CoresOk(n, next);
    assert ProposalsOk(n, next);
    assert OneBodyPerRound(next);
    assert ApprovalsOk(n, next);
    assert HeldOk(n, next);
    assert ConfigsOk(n, next) by {
      forall c | c in w.configs ensures KnownConfig(n, next, c) { assert KnownConfig(n, w, c); }
    }
  }

  lemma HearKeeps(n: Network, w: World, at: Key, body: Body, s: Signature)
    requires Inv(n, w) && Possible(n, w, Hears(at, body, s))
    ensures Inv(n, Happen(n, w, Hears(at, body, s)))
  {
    var next := Happen(n, w, Hears(at, body, s));
    AddSigKnown(n, w, w.cores[at], body, s.signer, s.bytes);
    AssembleKnown(n, w, AddSig(w.cores[at], body, s.signer, s.bytes), body);
    assert next.tokens == w.tokens;
    assert CoresOk(n, next) && ProposalsOk(n, next) && OneBodyPerRound(next) && ApprovalsOk(n, next);
    assert HeldOk(n, next);
    assert ConfigsOk(n, next);
  }

  lemma LearnKeeps(n: Network, w: World, at: Key, cfg: Config, structural: bool)
    requires Inv(n, w) && Possible(n, w, Learns(at, cfg, structural))
    ensures Inv(n, Happen(n, w, Learns(at, cfg, structural)))
  {
    var next := Happen(n, w, Learns(at, cfg, structural));
    assert next.tokens == w.tokens;
    assert CoresOk(n, next) && OneBodyPerRound(next) && ApprovalsOk(n, next);
    assert ProposalsOk(n, next);
    assert HeldOk(n, next);
    assert ConfigsOk(n, next);
  }

  lemma {:induction false} RunKeeps(n: Network, run: seq<Event>)
    requires Plausible(n, run)
    ensures Inv(n, After(n, run))
    decreases |run|
  {
    if run != [] {
      var e := run[|run| - 1];
      RunKeeps(n, run[..|run| - 1]);
      var w := After(n, run[..|run| - 1]);
      match e
      case Offers(content) => OfferKeeps(n, w, content);
      case Decodes(at, p, valid) => DecodeKeeps(n, w, at, p, valid);
      case Hears(at, body, s) => HearKeeps(n, w, at, body, s);
      case Learns(at, cfg, structural) => LearnKeeps(n, w, at, cfg, structural);
    }
  }

  // ---------------------------------------------------------------- one config per round

  /** A threshold of backers includes an honest one. */
  lemma HonestBacker(n: Network, cfg: Config) returns (k: Key)
    requires HonestLead(n) && Multisigned(n.committee, cfg)
    ensures k in n.honest && k in Backers(n.committee, cfg)
  {
    var backers := Backers(n.committee, cfg);
    SubsetSize(backers - n.honest, Elements(n.committee.members) - n.honest);
    assert backers == (backers - n.honest) + backers * n.honest;
    k :| k in backers * n.honest;
  }

  /** Every configuration that passes `verify_multisig` carries a body the lead proposed. */
  lemma LeadProposed(n: Network, run: seq<Event>, cfg: Config)
    requires HonestLead(n) && Plausible(n, run)
    requires Multisigned(n.committee, cfg) && KnownConfig(n, After(n, run), cfg)
    ensures Token(n.lead, Propose(cfg.body)) in After(n, run).tokens
  {
    RunKeeps(n, run);
    var k := HonestBacker(n, cfg);
    var s :| s in cfg.signatures && Backs(n.committee, cfg, s) && s.signer == k;
    assert Known(n, After(n, run), s.bytes);
    assert Token(k, Approve(cfg.body)) in After(n, run).tokens;
  }

  /** Any two configurations that can exist and verify for one round have the same body. */
  lemma OneConfigPerRound(n: Network, run: seq<Event>, a: Config, b: Config)
    requires HonestLead(n) && Plausible(n, run)
    requires Multisigned(n.committee, a) && KnownConfig(n, After(n, run), a)
    requires Multisigned(n.committee, b) && KnownConfig(n, After(n, run), b)
    requires a.body.round == b.body.round
    ensures a.body == b.body
  {
    RunKeeps(n, run);
    LeadProposed(n, run, a);
    LeadProposed(n, run, b);
  }

  /** What honest cores publish verifies, so those configurations too are one per round. */
  lemma PublishedConfigs(n: Network, run: seq<Event>, a: Config, b: Config)
    requires HonestLead(n) && Plausible(n, run)
    requires a in After(n, run).configs && b in After(n, run).configs
    ensures Multisigned(n.committee, a)
    ensures a.body.round == b.body.round ==> a.body == b.body
  {
    RunKeeps(n, run);
    if a.body.round == b.body.round {
      OneConfigPerRound(n, run, a, b);
    }
  }

  // ---------------------------------------------------------------- adoption

  /** A node adopts strictly newer configurations that verify, and ignores the rest. */
  function Adopt(c: Committee, held: Config, offered: seq<Config>): Config {
    if offered == [] then held
    else
      var before := Adopt(c, held, offered[..|offered| - 1]);
      var cfg := offered[|offered| - 1];
      if Multisigned(c, cfg) && cfg.body.round > before.body.round then cfg else before
  }

  lemma {:induction false} AdoptsNewest(c: Committee, held: Config, offered: seq<Config>)
    ensures var r := Adopt(c, held, offered);
      (r == held || (r in offered && Multisigned(c, r) && r.body.round > held.body.round))
      && forall cfg :: cfg in offered && Multisigned(c, cfg) ==> cfg.body.round <= r.body.round
    decreases |offered|
  {
    if offered != [] {
      AdoptsNewest(c, held, offered[..|offered| - 1]);
      assert forall cfg :: cfg in offered <==> cfg in offered[..|offered| - 1] || cfg == offered[|offered| - 1] by {
        assert offered == offered[..|offered| - 1] + [offered[|offered| - 1]];
      }
    }
  }

  ghost predicate AllKnown(n: Network, w: World, cfgs: seq<Config>) {
    forall cfg :: cfg in cfgs ==> KnownConfig(n, w, cfg)
  }

  /**
   * Nodes that start from one configuration and end up with the same round hold the
   * same body, whatever was offered to each and in whatever order; and a node
   * offered everything another was offered is never behind it.
   */
  lemma AdoptionAgrees(n: Network, run: seq<Event>, held: Config, xs: seq<Config>, ys: seq<Config>)
    requires HonestLead(n) && Plausible(n, run)
    requires AllKnown(n, After(n, run), xs) && AllKnown(n, After(n, run), ys)
    ensures var a, b := Adopt(n.committee, held, xs), Adopt(n.committee, held, ys);
      (a.body.round == b.body.round ==> a.body == b.body)
      && ((forall cfg :: cfg in xs ==> cfg in ys) ==> a.body.round <= b.body.round)
  {
    AdoptsNewest(n.committee, held, xs);
    AdoptsNewest(n.committee, held, ys);
    var a, b := Adopt(n.committee, held, xs), Adopt(n.committee, held, ys);
    if a.body.round == b.body.round && a != held && b != held {
      OneConfigPerRound(n, run, a, b);
    }
  }
}
