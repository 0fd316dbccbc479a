/**
 * The committee's governance core: the lead versions and signs proposals, members
 * approve what the lead signed, and anyone holding a threshold of approvals can
 * assemble and publish a configuration.
 *
 * A body is its round and its content, the canonical bytes with the round set to
 * zero.  Signatures are symbolic: a token names its maker and the tagged statement
 * it covers, so the propose and approve domains never meet.
 */
module Governance {
  import opened Basics

  type Key = nat

  const MAX_ROUND: nat := 0xFFFF_FFFF_FFFF_FFFF
  const MAX_ROUND_ADVANCE: nat := 8

  datatype Body = Body(round: nat, content: Bytes)

  datatype Statement = Propose(body: Body) | Approve(body: Body)

  /** Signature bytes: `maker` made them over `statement`. */
  datatype Token = Token(maker: Key, statement: Statement)

  datatype Signature = Signature(signer: Key, bytes: Token)

  datatype Config = Config(body: Body, signatures: seq<Signature>)

  datatype Proposal = Proposal(body: Body, proposer: Key, signature: Token)

  datatype Verdict = Accepted | BadThreshold | Insufficient(got: nat)

  datatype Committee = Committee(members: seq<Key>, threshold: nat)

  predicate Verifies(signer: Key, statement: Statement, bytes: Token) {
    bytes == Token(signer, statement)
  }

  // ---------------------------------------------------------------- multisignatures

  predicate Backs(c: Committee, cfg: Config, s: Signature) {
    s in cfg.signatures && s.signer in c.members && Verifies(s.signer, Approve(cfg.body), s.bytes)
  }

  /** The distinct committee members whose approval of the body the config carries. */
  function Backers(c: Committee, cfg: Config): set<Key> {
    set s | s in cfg.signatures && Backs(c, cfg, s) :: s.signer
  }

  predicate Multisigned(c: Committee, cfg: Config) {
    0 < c.threshold <= |c.members| && |Backers(c, cfg)| >= c.threshold
  }

  lemma OneMoreSignature(c: Committee, body: Body, sigs: seq<Signature>, i: nat)
    requires i < |sigs|
    ensures var before, after := Backers(c, Config(body, sigs[..i])), Backers(c, Config(body, sigs[..i + 1]));
      after == if sigs[i].signer in c.members && Verifies(sigs[i].signer, Approve(body), sigs[i].bytes)
               then before + {sigs[i].signer} else before
  {
    var was, now := Config(body, sigs[..i]), Config(body, sigs[..i + 1]);
    assert forall s :: s in sigs[..i + 1] <==> s in sigs[..i] || s == sigs[i] by {
      assert sigs[..i + 1] == sigs[..i] + [sigs[i]];
    }
    var good := sigs[i].signer in c.members && Verifies(sigs[i].signer, Approve(body), sigs[i].bytes);
    assert forall s :: Backs(c, now, s) <==> Backs(c, was, s) || (s == sigs[i] && good);
    forall k ensures k in Backers(c, now) <==> k in Backers(c, was) || (good && k == sigs[i].signer) {
      if k in Backers(c, now) {
        var s :| s in sigs[..i + 1] && Backs(c, now, s) && s.signer == k;
        assert Backs(c, was, s) || (s == sigs[i] && good);
      }
      if k in Backers(c, was) {
        var s :| s in sigs[..i] && Backs(c, was, s) && s.signer == k;
        assert Backs(c, now, s);
      }
      if good && k == sigs[i].signer {
        assert Backs(c, now, sigs[i]);
      }
    }
  }

  /** Accepts exactly when enough distinct committee members approved this body. */
  method VerifyMultisig(c: Committee, cfg: Config) returns (v: Verdict)
    ensures v == Accepted <==> Multisigned(c, cfg)
    ensures v == BadThreshold <==> c.threshold == 0 || c.threshold > |c.members|
    ensures v.Insufficient? ==> v.got == |Backers(c, cfg)| < c.threshold
  {
    if c.threshold == 0 || c.threshold > |c.members| {
      return BadThreshold;
    }
    var seen: seq<Key> := [];
    var i := 0;
    while i < |cfg.signatures|
      invariant i <= |cfg.signatures|
      invariant forall a, b :: 0 <= a < b < |seen| ==> seen[a] != seen[b]
      invariant Elements(seen) == Backers(c, Config(cfg.body, cfg.signatures[..i]))
    {
      var sig := cfg.signatures[i];
      OneMoreSignature(c, cfg.body, cfg.signatures, i);
      if sig.signer in c.members && sig.signer !in seen && Verifies(sig.signer, Approve(cfg.body), sig.bytes) {
        Appended(seen, sig.signer);
        seen := seen + [sig.signer];
      }
      i := i + 1;
    }
    assert cfg.signatures[..|cfg.signatures|] == cfg.signatures;
    assert Config(cfg.body, cfg.signatures) == cfg;
    DistinctCount(seen);
    if |seen| < c.threshold {
      return Insufficient(|seen|);
    }
    return Accepted;
  }

  function Elements(s: seq<Key>): set<Key> { set k | k in s }

  lemma Appended(s: seq<Key>, k: Key)
    ensures Elements(s + [k]) == Elements(s) + {k}
  {
  }

  lemma {:induction false} DistinctCount(s: seq<Key>)
    requires forall a, b :: 0 <= a < b < |s| ==> s[a] != s[b]
    ensures |Elements(s)| == |s|
  {
    if s != [] {
      var init, last := s[..|s| - 1], s[|s| - 1];
      assert s == init + [last];
      DistinctCount(init);
      Appended(init, last);
    }
  }

  /** Appends each identity's approval unless one under its key is already there. */
  method SignWith(cfg: Config, identities: seq<Key>) returns (r: Config)
    ensures r.body == cfg.body && cfg.signatures <= r.signatures
    ensures forall c :: Backers(c, cfg) <= Backers(c, r)
    ensures cfg.signatures == [] ==>
      forall c: Committee :: Backers(c, r) == set k | k in identities && k in c.members
  {
    r := cfg;
    var i := 0;
    while i < |identities|
      invariant i <= |identities|
      invariant r.body == cfg.body && cfg.signatures <= r.signatures
      invariant cfg.signatures == [] ==> forall s :: s in r.signatures <==> s.signer in identities[..i] && s == Signed(s.signer, cfg.body)
    {
      var id := identities[i];
      assert forall k :: k in identities[..i + 1] <==> k in identities[..i] || k == id by {
        assert identities[..i + 1] == identities[..i] + [id];
      }
      if forall s <- r.signatures :: s.signer != id {
        r := Config(r.body, r.signatures + [Signed(id, cfg.body)]);
      } else if cfg.signatures == [] {
        var s :| s in r.signatures && s.signer == id;
        assert id in identities[..i];
      }
      i := i + 1;
    }
    assert identities[..|identities|] == identities;
    forall c: Committee ensures Backers(c, cfg) <= Backers(c, r) {
      forall k | k in Backers(c, cfg) ensures k in Backers(c, r) {
        var s :| s in cfg.signatures && Backs(c, cfg, s) && s.signer == k;
        assert Backs(c, r, s);
      }
    }
    if cfg.signatures == [] {
      forall c: Committee ensures Backers(c, r) == set k | k in identities && k in c.members {
        forall k | k in identities && k in c.members ensures k in Backers(c, r) {
          assert Signed(k, cfg.body) in r.signatures;
          assert Backs(c, r, Signed(k, cfg.body));
        }
      }
    }
  }

  function Signed(k: Key, body: Body): Signature { Signature(k, Token(k, Approve(body))) }

  // ---------------------------------------------------------------- one core

  datatype Core = Core(
    me: Key,
    lead: Key,
    lastAccepted: Option<nat>,
    publicRound: nat,
    publishedRound: Option<nat>,
    lastContent: Option<Bytes>,
    sigs: map<Body, map<Key, Token>>,
    published: set<Body>)

  function NewCore(me: Key, lead: Key): Core { Core(me, lead, None, 0, None, None, map[], {}) }

  function OrZero(o: Option<nat>): nat { if o.None? then 0 else o.value }

  /** The proposing half of a tick, once the lead's registration floors are met. */
  function Offer(k: Core, content: Bytes): (Core, Option<Proposal>) {
    var bumped := if k.lastContent != Some(content)
                  then k.(publicRound := (k.publicRound + 1) % (MAX_ROUND + 1), lastContent := Some(content))
                  else k;
    if bumped.publishedRound == Some(bumped.publicRound) then (bumped, None)
    else
      var body := Body(bumped.publicRound, content);
      (bumped, Some(Proposal(body, k.me, Token(k.me, Propose(body)))))
  }

  function Established(k: Core): nat {
    Max(Max(OrZero(k.lastAccepted), k.publicRound), OrZero(k.publishedRound))
  }

  /** The proposals a core approves: from the lead, signed, fresh, reachable and valid here. */
  predicate Approves(k: Core, p: Proposal, valid: bool) {
    p.proposer == k.lead
    && Verifies(p.proposer, Propose(p.body), p.signature)
    && (k.lastAccepted.Some? ==> p.body.round >= k.lastAccepted.value)
    && p.body.round <= Min(Established(k) + MAX_ROUND_ADVANCE, MAX_ROUND)
    && valid
  }

  function Held(k: Core, body: Body): map<Key, Token> {
    if body in k.sigs then k.sigs[body] else map[]
  }

  function AddSig(k: Core, body: Body, signer: Key, t: Token): Core {
    k.(sigs := k.sigs[body := Held(k, body)[signer := t]])
  }

  /** All the approvals held for a body; a `HashMap` gives them in no set order, here by key. */
  function Assembled(held: map<Key, Token>, body: Body): Config {
    var order := Sorted(held.Keys);
    Config(body, seq(|order|, i requires 0 <= i < |order| => assert order[i] in order; Signature(order[i], held[order[i]])))
  }

  function TryAssemble(c: Committee, k: Core, body: Body): (Core, Option<Config>) {
    if body in k.published || body !in k.sigs || |k.sigs[body]| < c.threshold || !Multisigned(c, Assembled(k.sigs[body], body)) then (k, None)
    else (k.(published := k.published + {body}, publishedRound := Raise(k.publishedRound, body.round)), Some(Assembled(k.sigs[body], body)))
  }

  function Decoded(c: Committee, k: Core, p: Proposal, valid: bool): (Core, Option<Signature>, Option<Config>) {
    if !Approves(k, p, valid) then (k, None, None)
    else
      var sig := Signed(k.me, p.body);
      var accepted := AddSig(k.(lastAccepted := Raise(k.lastAccepted, p.body.round)), p.body, k.me, sig.bytes);
      var (assembled, cfg) := TryAssemble(c, accepted, p.body);
      (assembled, Some(sig), cfg)
  }

  function SigReceived(c: Committee, k: Core, body: Body, s: Signature): (Core, Option<Config>) {
    if s.signer !in c.members || !Verifies(s.signer, Approve(body), s.bytes) then (k, None)
    else TryAssemble(c, AddSig(k, body, s.signer, s.bytes), body)
  }

  function ConfigReceived(c: Committee, k: Core, cfg: Config, structural: bool): (Core, bool) {
    if !Multisigned(c, cfg) || !structural then (k, false)
    else (k.(lastAccepted := Raise(k.lastAccepted, cfg.body.round),
             publicRound := Max(k.publicRound, cfg.body.round),
             publishedRound := Raise(k.publishedRound, cfg.body.round),
             published := k.published + {cfg.body}), true)
  }

  // ---------------------------------------------------------------- the core, in place

  /** `SchedulerCore`'s governance fields.  Validation against local registrations is the caller's verdict. */
  class SchedulerCore {
    const committee: Committee
    const me: Key
    const lead: Key
    var lastAccepted: Option<nat>
    var publicRound: nat
    var publishedRound: Option<nat>
    var lastContent: Option<Bytes>
    var sigs: map<Body, map<Key, Token>>
    var published: set<Body>

    ghost function View(): Core reads this {
      Core(me, lead, lastAccepted, publicRound, publishedRound, lastContent, sigs, published)
    }

    constructor (c: Committee, me: Key, lead: Key)
      ensures committee == c && View() == NewCore(me, lead)
    {
      committee, this.me, this.lead := c, me, lead;
      lastAccepted, publicRound, publishedRound, lastContent := None, 0, None, None;
      sigs, published := map[], {};
    }

    method Propose(content: Bytes) returns (out: Option<Proposal>)
      modifies this`publicRound, this`lastContent
      ensures (View(), out) == Offer(old(View()), content)
    {
      out := None;
      if lastContent != Some(content) {
        publicRound := (publicRound + 1) % (MAX_ROUND + 1);
        lastContent := Some(content);
      }
      if publishedRound != Some(publicRound) {
        var body := Body(publicRound, content);
        out := Some(Proposal(body, me, Token(me, Statement.Propose(body))));
      }
    }

    method OnDecodedBody(p: Proposal, valid: bool) returns (sig: Option<Signature>, cfg: Option<Config>)
      modifies this`lastAccepted, this`sigs, this`published, this`publishedRound
      ensures (View(), sig, cfg) == Decoded(committee, old(View()), p, valid)
    {
      sig, cfg := None, None;
      if p.proposer != lead || !Verifies(p.proposer, Statement.Propose(p.body), p.signature) {
        return;
      }
      if lastAccepted.Some? && p.body.round < lastAccepted.value {
        return;
      }
      var established := Max(Max(OrZero(lastAccepted), publicRound), OrZero(publishedRound));
      if p.body.round > Min(established + MAX_ROUND_ADVANCE, MAX_ROUND) || !valid {
        return;
      }
      lastAccepted := Raise(lastAccepted, p.body.round);
      var mine := Signed(me, p.body);
      sig := Some(mine);
      sigs := sigs[p.body := (if p.body in sigs then sigs[p.body] else map[])[me := mine.bytes]];
      cfg := TryAssembleNow(p.body);
    }

    method OnCommitteeSig(body: Body, s: Signature) returns (cfg: Option<Config>)
      modifies this`sigs, this`published, this`publishedRound
      ensures (View(), cfg) == SigReceived(committee, old(View()), body, s)
    {
      if s.signer !in committee.members || !Verifies(s.signer, Approve(body), s.bytes) {
        return None;
      }
      sigs := sigs[body := (if body in sigs then sigs[body] else map[])[s.signer := s.bytes]];
      cfg := TryAssembleNow(body);
    }

    method OnPublishedConfig(cfg: Config, structural: bool) returns (ok: bool)
      modifies this`lastAccepted, this`publicRound, this`publishedRound, this`published
      ensures (View(), ok) == ConfigReceived(committee, old(View()), cfg, structural)
    {
      var v := VerifyMultisig(committee, cfg);
      if v != Accepted || !structural {
        return false;
      }
      var r := cfg.body.round;
      lastAccepted := Raise(lastAccepted, r);
      publicRound := Max(publicRound, r);
      publishedRound := Raise(publishedRound, r);
      published := published + {cfg.body};
      return true;
    }

    method TryAssembleNow(body: Body) returns (cfg: Option<Config>)
      modifies this`published, this`publishedRound
      ensures (View(), cfg) == TryAssemble(committee, old(View()), body)
    {
      if body in published || body !in sigs || |sigs[body]| < committee.threshold {
        return None;
      }
      var built := Assembled(sigs[body], body);
      var v := VerifyMultisig(committee, built);
      if v != Accepted {
        return None;
      }
      published := published + {body};
      publishedRound := Raise(publishedRound, body.round);
      return Some(built);
    }
  }
}
