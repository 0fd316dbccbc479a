/**
 * The leader and its relays together: sets are announced by the leader, heard by relays,
 * shared over, and the shares come back in any order, late, or not at all.
 */
module AdcnetNetworks {
  import opened Basics
  import opened Adcnet
  import opened AdcnetRuns
  import opened AdcnetRelays

  /** A share under way: who computed it, for which round. */
  datatype Posted = Posted(relay: nat, round: nat, v: Vec)

  datatype Net = Net(h: Ledger, relays: nat -> Relay, posted: set<Posted>)

  const Start: Net := Net(AdcnetRuns.Opening, (j: nat) => NewRelay, {})

  datatype NetEvent =
    | Leads(e: Event)
    | Ticks(j: nat, round: nat)
    | Announces(j: nat, t: nat)
    | Posts(j: nat, ok: nat -> bool, share: nat -> Vec)
    | Arrives(post: Posted)

  function With(relays: nat -> Relay, j: nat, r: Relay): nat -> Relay { (i: nat) => if i == j then r else relays(i) }

  /** The shares a relay sends now, one a round it shares over. */
  function PostsOf(r: Relay, j: nat, ok: nat -> bool, share: nat -> Vec): set<Posted> {
    set t | t in Sharing(r, ok) :: Posted(j, t, share(t))
  }

  function NetStep(c: Config, keys: Keys, n: Net, e: NetEvent): Net {
    match e
    case Leads(f) => n.(h := Step(c, n.h, f))
    case Ticks(j, round) => n.(relays := With(n.relays, j, Tick(n.relays(j), round)))
    case Announces(j, t) =>
      if t !in n.h.announced then n
      else n.(relays := With(n.relays, j, Hear(c, keys, n.relays(j), t, n.h.announced[t], true)))
    case Posts(j, ok, share) =>
      n.(relays := With(n.relays, j, Share(n.relays(j), ok)), posted := n.posted + PostsOf(n.relays(j), j, ok, share))
    case Arrives(post) => n.(h := Step(c, n.h, Shares(post.round, Some(post.relay), post.v)))
  }

  function NetRun(c: Config, keys: Keys, events: seq<NetEvent>): Net {
    if events == [] then Start else NetStep(c, keys, NetRun(c, keys, events[..|events| - 1]), events[|events| - 1])
  }

  /** Clients blind under keys that recover; relays unblind the set they stored; shares arrive as they were sent. */
  ghost predicate Fair(c: Config, keys: Keys, n: Net, e: NetEvent, w: World)
    requires c.order > 0
  {
    match e
    case Leads(f) => !f.Shares? && LeaderFair(c, keys, n.h, f, w)
    case Posts(j, ok, share) =>
      j < c.relays && forall t :: t in Sharing(n.relays(j), ok) ==> RelayOk(c, t, n.relays(j).sets[t], j, share(t), w)
    case Arrives(post) => post in n.posted
    case _ => true
  }

  /** The leader's rounds begin in order, and it files contributions whose signer's key it recovered. */
  ghost predicate LeaderFair(c: Config, keys: Keys, h: Ledger, e: Event, w: World)
    requires c.order > 0
  {
    && Honest(c, h, e, w)
    && (e.Begins? ==> e.round >= h.l.cur)
    && (e.Contributes? && e.ok ==> keys.recovers(e.x.signer))
  }

  ghost predicate FairRun(c: Config, keys: Keys, events: seq<NetEvent>, w: World)
    requires c.order > 0
  {
    events == []
    || (FairRun(c, keys, events[..|events| - 1], w)
        && Fair(c, keys, NetRun(c, keys, events[..|events| - 1]), events[|events| - 1], w))
  }

  /** What the leader sees of a run. */
  function Seen(events: seq<NetEvent>): seq<Event> {
    if events == [] then []
    else
      var before := Seen(events[..|events| - 1]);
      match events[|events| - 1]
      case Leads(f) => before + [f]
      case Arrives(post) => before + [Shares(post.round, Some(post.relay), post.v)]
      case _ => before
  }

  // ---------------------------------------------------------------- what every network run keeps

  /** Every announced member's key recovers, as did every contributor's. */
  ghost predicate Recoverable(keys: Keys, h: Ledger) {
    && (forall t, i :: t in h.l.clients && 0 <= i < |h.l.clients[t]| ==> keys.recovers(h.l.clients[t][i].signer))
    && (forall t :: t in h.announced ==> AllRecover(keys, h.announced[t]))
  }

  ghost predicate AllRecover(keys: Keys, ks: seq<Key>) { forall k :: k in ks ==> keys.recovers(k) }

  /** A relay's set for a round is the one the leader announced. */
  ghost predicate SetsMatch(h: Ledger, r: Relay) {
    forall t :: t in r.sets ==> t in h.announced && r.sets[t] == h.announced[t]
  }

  ghost predicate PostOk(c: Config, h: Ledger, x: Posted, w: World)
    requires c.order > 0
  {
    x.relay < c.relays && x.round in h.announced && RelayOk(c, x.round, h.announced[x.round], x.relay, x.v, w)
  }

  ghost predicate NetInv(c: Config, keys: Keys, n: Net, w: World)
    requires c.order > 0
  {
    && Inv(c, n.h) && Recoverable(keys, n.h)
    && (forall j: nat :: SetsMatch(n.h, n.relays(j)))
    && (forall x :: x in n.posted ==> PostOk(c, n.h, x, w))
  }

  /** Announced sets stay, and only grow in number. */
  ghost predicate Extends(a: Ledger, b: Ledger) {
    forall t :: t in a.announced ==> t in b.announced && b.announced[t] == a.announced[t]
  }

  lemma AnnouncedStays(c: Config, h: Ledger, e: Event)
    requires Inv(c, h) && c.me < c.relays
    ensures Extends(h, Step(c, h, e))
  {
    if e.Ends? {
      EndSets(c, h, e.own, e.accept);
    }
  }

  lemma EndSets(c: Config, h: Ledger, own: nat -> Option<Vec>, accept: nat -> bool)
    requires Inv(c, h) && c.me < c.relays
    ensures Extends(h, Step(c, h, Ends(own, accept)))
    ensures Step(c, h, Ends(own, accept)).announced == h.announced + Announce(h.l, h.l.cur).sets
  {
    assert End(c, h.l, h.l.cur, own, accept).0.sets == Announce(h.l, h.l.cur).sets;
  }

  lemma SetForRecovers(keys: Keys, l: Leader, round: nat)
    requires forall t, i :: t in l.clients && 0 <= i < |l.clients[t]| ==> keys.recovers(l.clients[t][i].signer)
    ensures AllRecover(keys, SetFor(l, round))
  {
    var bucket := BucketAt(l, round);
    forall k | k in SetFor(l, round) ensures keys.recovers(k) {
      assert k in Signers(bucket);
    }
  }

  lemma EndRecoverable(c: Config, keys: Keys, h: Ledger, own: nat -> Option<Vec>, accept: nat -> bool)
    requires Inv(c, h) && c.me < c.relays && Recoverable(keys, h)
    ensures Recoverable(keys, Step(c, h, Ends(own, accept)))
  {
    EndSets(c, h, own, accept);
    SetForRecovers(keys, h.l, h.l.cur);
    var u := Step(c, h, Ends(own, accept));
    forall t | t in u.announced ensures AllRecover(keys, u.announced[t]) {
      assert t in h.announced ==> AllRecover(keys, h.announced[t]);
    }
  }

  lemma LeaderRecoverable(c: Config, keys: Keys, h: Ledger, e: Event, w: World)
    requires c.order > 0 && Inv(c, h) && c.me < c.relays && Recoverable(keys, h)
    requires e.Contributes? && e.ok ==> keys.recovers(e.x.signer)
    ensures Recoverable(keys, Step(c, h, e))
  {
    match e
    case Ends(own, accept) => EndRecoverable(c, keys, h, own, accept);
    case Contributes(t, x, ok, keyOk) =>
    case _ =>
  }

  lemma LeaderKeeps(c: Config, h: Ledger, e: Event)
    requires Inv(c, h) && c.me < c.relays && (e.Begins? ==> e.round >= h.l.cur)
    ensures Inv(c, Step(c, h, e))
  {
    match e
    case Begins(round) => BeginKeeps(c, h, round);
    case Contributes(round, x, ok, keyOk) => ContributeKeeps(c, h, round, x, ok, keyOk);
    case Shares(round, slot, v) => ShareKeeps(c, h, round, slot, v);
    case Ends(own, accept) => EndKeeps(c, h, own, accept);
  }

  /** Whatever the leader does, what relays and posts rely on stands. */
  lemma LeadKeeps(c: Config, keys: Keys, n: Net, e: Event, w: World)
    requires c.order > 0 && c.me < c.relays && NetInv(c, keys, n, w)
    requires (e.Begins? ==> e.round >= n.h.l.cur) && (e.Contributes? && e.ok ==> keys.recovers(e.x.signer))
    ensures NetInv(c, keys, n.(h := Step(c, n.h, e)), w)
  {
    LeaderKeeps(c, n.h, e);
    LeaderRecoverable(c, keys, n.h, e, w);
    AnnouncedStays(c, n.h, e);
    var h := Step(c, n.h, e);
    forall j: nat ensures SetsMatch(h, n.relays(j)) { assert SetsMatch(n.h, n.relays(j)); }
    forall x | x in n.posted ensures PostOk(c, h, x, w) { assert PostOk(c, n.h, x, w); }
  }

  lemma RelayKeeps(c: Config, keys: Keys, n: Net, j: nat, r: Relay, w: World)
    requires c.order > 0 && NetInv(c, keys, n, w) && SetsMatch(n.h, r)
    ensures NetInv(c, keys, n.(relays := With(n.relays, j, r)), w)
  {
    forall i: nat ensures SetsMatch(n.h, With(n.relays, j, r)(i)) { assert SetsMatch(n.h, n.relays(i)); }
  }

  /** A relay stores what was announced: all its members recover. */
  lemma HearsAnnounced(c: Config, keys: Keys, n: Net, j: nat, t: nat, w: World)
    requires c.order > 0 && NetInv(c, keys, n, w) && t in n.h.announced
    ensures SetsMatch(n.h, Hear(c, keys, n.relays(j), t, n.h.announced[t], true))
  {
    assert SetsMatch(n.h, n.relays(j)) && AllRecover(keys, n.h.announced[t]);
    FilterAll(n.h.announced[t], keys.recovers);
  }

  lemma PostsKeep(c: Config, keys: Keys, n: Net, j: nat, ok: nat -> bool, share: nat -> Vec, w: World)
    requires c.order > 0 && NetInv(c, keys, n, w) && Fair(c, keys, n, Posts(j, ok, share), w)
    ensures NetInv(c, keys, NetStep(c, keys, n, Posts(j, ok, share)), w)
  {
    assert SetsMatch(n.h, n.relays(j));
    RelayKeeps(c, keys, n, j, Share(n.relays(j), ok), w);
    forall x | x in PostsOf(n.relays(j), j, ok, share) ensures PostOk(c, n.h, x, w) {
      assert RelayOk(c, x.round, n.relays(j).sets[x.round], j, share(x.round), w);
    }
  }

  lemma NetStepKeeps(c: Config, keys: Keys, n: Net, e: NetEvent, w: World)
    requires c.order > 0 && c.me < c.relays && NetInv(c, keys, n, w) && Fair(c, keys, n, e, w)
    ensures NetInv(c, keys, NetStep(c, keys, n, e), w)
  {
    match e
    case Leads(f) => LeadKeeps(c, keys, n, f, w);
    case Ticks(j, round) =>
      assert SetsMatch(n.h, n.relays(j));
      RelayKeeps(c, keys, n, j, Tick(n.relays(j), round), w);
    case Announces(j, t) =>
      if t in n.h.announced {
        HearsAnnounced(c, keys, n, j, t, w);
        RelayKeeps(c, keys, n, j, Hear(c, keys, n.relays(j), t, n.h.announced[t], true), w);
      }
    case Posts(j, ok, share) => PostsKeep(c, keys, n, j, ok, share, w);
    case Arrives(post) => LeadKeeps(c, keys, n, Shares(post.round, Some(post.relay), post.v), w);
  }

  lemma {:induction false} NetRunKeeps(c: Config, keys: Keys, events: seq<NetEvent>, w: World)
    requires c.order > 0 && c.me < c.relays && FairRun(c, keys, events, w)
    ensures NetInv(c, keys, NetRun(c, keys, events), w)
  {
    if events != [] {
      var init := events[..|events| - 1];
      NetRunKeeps(c, keys, init, w);
      NetStepKeeps(c, keys, NetRun(c, keys, init), events[|events| - 1], w);
    }
  }

  // ---------------------------------------------------------------- the leader's view is an honest run

  lemma SnocRun(c: Config, events: seq<Event>, e: Event, all: seq<Event>, w: World)
    requires c.order > 0 && all == events + [e]
    ensures Run(c, all) == Step(c, Run(c, events), e)
    ensures Ordered(c, all) <==> Ordered(c, events) && (e.Begins? ==> e.round >= Run(c, events).l.cur)
    ensures HonestRun(c, all, w) <==> HonestRun(c, events, w) && Honest(c, Run(c, events), e, w)
  {
    assert all[..|all| - 1] == events;
  }

  /** What the leader sees next, if anything. */
  function SeenNow(e: NetEvent): Option<Event> {
    match e
    case Leads(f) => Some(f)
    case Arrives(post) => Some(Shares(post.round, Some(post.relay), post.v))
    case _ => None
  }

  lemma SeenIsHonest(c: Config, keys: Keys, n: Net, e: NetEvent, w: World)
    requires c.order > 0 && NetInv(c, keys, n, w) && Fair(c, keys, n, e, w) && SeenNow(e).Some?
    ensures var f := SeenNow(e).value;
      Honest(c, n.h, f, w) && (f.Begins? ==> f.round >= n.h.l.cur) && NetStep(c, keys, n, e).h == Step(c, n.h, f)
  {
    if e.Arrives? { assert PostOk(c, n.h, e.post, w); }
  }

  ghost predicate SeenWell(c: Config, events: seq<Event>, h: Ledger, w: World)
    requires c.order > 0
  {
    Run(c, events) == h && Ordered(c, events) && HonestRun(c, events, w)
  }

  /** Over every network run, what the leader sees is an ordered run of honest clients and relays. */
  lemma {:induction false} SeenIsHonestRun(c: Config, keys: Keys, events: seq<NetEvent>, w: World)
    requires c.order > 0 && c.me < c.relays && FairRun(c, keys, events, w)
    ensures SeenWell(c, Seen(events), NetRun(c, keys, events).h, w)
  {
    if events != [] {
      var init, e := events[..|events| - 1], events[|events| - 1];
      SeenIsHonestRun(c, keys, init, w);
      NetRunKeeps(c, keys, init, w);
      if SeenNow(e).Some? {
        SeenIsHonest(c, keys, NetRun(c, keys, init), e, w);
        SnocRun(c, Seen(init), SeenNow(e).value, Seen(events), w);
      }
    }
  }

  /**
   * In every run of the network - clients blind, the leader announces, relays hear the
   * announcement in any order or not at all, share over the set they stored, and their
   * shares arrive whenever they do - a round the leader combines is the sum of the
   * announced members' messages, each once.
   */
  lemma NetworkCombines(c: Config, keys: Keys, events: seq<NetEvent>, own: nat -> Option<Vec>, accept: nat -> bool, t: nat, w: World, x: nat)
    requires c.order > 0 && c.me < c.relays && x < c.width && FairRun(c, keys, events, w)
    requires var h := NetRun(c, keys, events).h;
      Honest(c, h, Ends(own, accept), w) && t in CombinedNow(c, AtCombine(c, h, own), accept)
    ensures var l := AtCombine(c, NetRun(c, keys, events).h, own);
      Combine(c, l, t)[x] == SumMessages(w.messages(t), l.sets[t], x) % c.order && Ascending(l.sets[t])
  {
    SeenIsHonestRun(c, keys, events, w);
    CombinedIsTheSum(c, Seen(events), own, accept, t, w, x);
  }
}
