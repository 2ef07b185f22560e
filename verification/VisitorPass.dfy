/** Visitor-pass tokens and their attenuation (ai_brain/auth.py:13-119, ai_brain/schema.py:87-107). */
module VisitorPass {
  import opened Basics

  datatype EpistemicState = UserConfirmed | Verified | Inference | Hypothesis | Contradicted | Superseded

  datatype Token = Token(
    subject: string, audience: string, scopes: seq<string>, states: seq<EpistemicState>,
    maxHops: int, visibility: string, ttl: int, createdAt: real)

  datatype Refusal = InvalidParent | ScopeViolation | StateViolation | HopViolation | HopsOutOfRange

  /** What a derivation asks for; absent parts are inherited. */
  datatype Request = Request(
    subject: string, scopes: Option<seq<string>>, states: Option<seq<EpistemicState>>, maxHops: Option<int>)

  /** The clock readings of one derivation: at verification, when the remaining life is
      computed, and when the token is created. */
  datatype Clock = Clock(verified: real, measured: real, created: real)

  const DEFAULT_SCOPES := ["facts:read", "relations:read", "projects:read"]
  const DEFAULT_STATES := [UserConfirmed, Verified, Inference]

  // ---------------------------------------------------------------- specification

  function Expiry(t: Token): real {
    t.createdAt + t.ttl as real
  }

  predicate Expired(t: Token, now: real) {
    now - t.createdAt > t.ttl as real
  }

  /** Python's `int()` on a float. */
  function Truncate(x: real): int {
    if x >= 0.0 then x.Floor else -((-x).Floor)
  }

  function OrDefault<T>(xs: seq<T>, default: seq<T>): seq<T> {
    if xs == [] then default else xs
  }

  function Issue(subject: string, audience: string, scopes: seq<string>, states: seq<EpistemicState>,
                 maxHops: int, visibility: string, ttl: int, now: real): Result<Token, Refusal> {
    var hops := Min(maxHops, 5);
    if hops < 1 then Err(HopsOutOfRange)
    else Ok(Token(subject, audience, OrDefault(scopes, DEFAULT_SCOPES), OrDefault(states, DEFAULT_STATES),
                  hops, visibility, ttl, now))
  }

  predicate Subset<T(==)>(xs: seq<T>, ys: seq<T>) {
    forall x | x in xs :: x in ys
  }

  /** A part of the parent, or what is asked of it. */
  function Part<T>(asked: Option<seq<T>>, inherited: seq<T>): seq<T> {
    if asked.Some? then asked.value else inherited
  }

  function Attenuate(parent: Token, r: Request, c: Clock): Result<Token, Refusal> {
    if Expired(parent, c.verified) then Err(InvalidParent)
    else if !Subset(Part(r.scopes, parent.scopes), parent.scopes) then Err(ScopeViolation)
    else if !Subset(Part(r.states, parent.states), parent.states) then Err(StateViolation)
    else if r.maxHops.Some? && r.maxHops.value > parent.maxHops then Err(HopViolation)
    else
      var remaining := Max(1, Truncate(parent.ttl as real - (c.measured - parent.createdAt)));
      Issue(r.subject, parent.audience, Part(r.scopes, parent.scopes), Part(r.states, parent.states),
            if r.maxHops.Some? then r.maxHops.value else parent.maxHops, parent.visibility, remaining, c.created)
  }

  lemma InheritedIsPart(parent: Token)
    ensures Subset(parent.scopes, parent.scopes) && Subset(parent.states, parent.states)
  {
  }

  // ---------------------------------------------------------------- one derivation

  /** Every issued token grants something and stays within the hop bounds. */
  predicate WellFormed(t: Token) {
    t.scopes != [] && t.states != [] && 1 <= t.maxHops <= 5
  }

  /** The request does not ask for an explicitly empty list. */
  predicate AsksSomething(r: Request) {
    r.scopes != Some([]) && r.states != Some([])
  }

  predicate NoMore(child: Token, parent: Token) {
    && Subset(child.scopes, parent.scopes) && Subset(child.states, parent.states)
    && child.maxHops <= parent.maxHops
    && child.audience == parent.audience && child.visibility == parent.visibility
  }

  /** A derived token never has more hops than its parent, and keeps audience and visibility.
      It grants no more scopes and states exactly when an empty list was not asked for, or
      the defaults put in its place happen to be within the parent's. */
  lemma DerivationAmplifiesExactly(parent: Token, r: Request, c: Clock)
    requires WellFormed(parent) && Attenuate(parent, r, c).Ok?
    ensures var child := Attenuate(parent, r, c).value;
            && WellFormed(child)
            && child.maxHops <= parent.maxHops
            && child.audience == parent.audience && child.visibility == parent.visibility
            && (Subset(child.scopes, parent.scopes) <==> r.scopes != Some([]) || Subset(DEFAULT_SCOPES, parent.scopes))
            && (Subset(child.states, parent.states) <==> r.states != Some([]) || Subset(DEFAULT_STATES, parent.states))
  {
  }

  /** The empty request does amplify: a token for one scope yields one for the defaults. */
  lemma EmptyRequestAmplifies(c: Clock)
    requires c.verified == c.measured == c.created == 0.0
    ensures var parent := Token("a", "b", ["facts:read"], [Verified], 1, "shared", 1800, 0.0);
            var r := Request("c", Some([]), None, None);
            Attenuate(parent, r, c).Ok? && "projects:read" in Attenuate(parent, r, c).value.scopes
            && "projects:read" !in parent.scopes
  {
    assert DEFAULT_SCOPES[2] == "projects:read" && "projects:read" != "facts:read" by {
      assert |"projects:read"| != |"facts:read"|;
    }
  }

  /** What is asked of the parent's grants lies within them. */
  predicate Within<T(==, !new)>(asked: Option<seq<T>>, grants: seq<T>) {
    asked.None? || forall x | x in asked.value :: x in grants
  }

  /** A derived token grants exactly what was asked for; what the parent grants where nothing
      was asked; and the defaults where an empty list was asked for. */
  ghost predicate Narrows<T(!new)>(granted: seq<T>, asked: Option<seq<T>>, parent: seq<T>, defaults: seq<T>) {
    forall x :: x in granted <==>
      match asked {
        case None => x in parent
        case Some(xs) => if xs == [] then x in defaults else x in xs
      }
  }

  /** What a derivation that succeeds grants, for how many hops, and to whom. */
  lemma DerivationNarrowsExactly(parent: Token, r: Request, c: Clock)
    requires WellFormed(parent) && Attenuate(parent, r, c).Ok?
    ensures var child := Attenuate(parent, r, c).value;
            && Narrows(child.scopes, r.scopes, parent.scopes, ["facts:read", "relations:read", "projects:read"])
            && Narrows(child.states, r.states, parent.states, [UserConfirmed, Verified, Inference])
            && child.maxHops == (match r.maxHops case Some(hops) => hops case None => parent.maxHops)
            && child.subject == r.subject && child.createdAt == c.created
  {
  }

  /** When a derivation succeeds: the parent has not expired, what is asked for lies within its
      grants, and the hops asked for are between one and its hops. */
  lemma DerivesExactly(parent: Token, r: Request, c: Clock)
    requires WellFormed(parent)
    ensures Attenuate(parent, r, c).Ok?
       <==> && c.verified <= Expiry(parent)
            && Within(r.scopes, parent.scopes) && Within(r.states, parent.states)
            && (r.maxHops.Some? ==> 1 <= r.maxHops.value <= parent.maxHops)
    ensures Attenuate(parent, r, c) == Err(InvalidParent) <==> c.verified > Expiry(parent)
    ensures Attenuate(parent, r, c) == Err(ScopeViolation)
       <==> c.verified <= Expiry(parent) && !Within(r.scopes, parent.scopes)
    ensures Attenuate(parent, r, c) == Err(StateViolation)
       <==> c.verified <= Expiry(parent) && Within(r.scopes, parent.scopes) && !Within(r.states, parent.states)
  {
  }

  /** With one clock reading and a second or more left, the derived token expires with its
      parent, up to the fraction of a second that is cut off. */
  lemma LifeIsInherited(parent: Token, r: Request, now: real)
    requires Attenuate(parent, r, Clock(now, now, now)).Ok? && Expiry(parent) - now >= 1.0
    ensures Expiry(parent) - 1.0 < Expiry(Attenuate(parent, r, Clock(now, now, now)).value) <= Expiry(parent)
  {
    var left := parent.ttl as real - (now - parent.createdAt);
    assert left.Floor as real <= left < (left.Floor + 1) as real && left.Floor >= 1;
  }

  /** A root token has the scopes and states asked for, or the defaults for empty lists, and at
      most five hops; it is refused exactly for fewer than one. */
  lemma IssuedExactly(subject: string, audience: string, scopes: seq<string>, states: seq<EpistemicState>, maxHops: int,
                      visibility: string, ttl: int, now: real)
    ensures var r := Issue(subject, audience, scopes, states, maxHops, visibility, ttl, now);
            && (r.Ok? <==> maxHops >= 1)
            && (r.Ok? ==>
                  && Narrows(r.value.scopes, Some(scopes), [], ["facts:read", "relations:read", "projects:read"])
                  && Narrows(r.value.states, Some(states), [], [UserConfirmed, Verified, Inference])
                  && r.value.maxHops <= maxHops && r.value.maxHops <= 5 && (r.value.maxHops == maxHops || maxHops > 5)
                  && (maxHops > 5 ==> r.value.maxHops == 5)
                  && Expiry(r.value) == now + ttl as real
                  && r.value.subject == subject && r.value.audience == audience && r.value.visibility == visibility)
  {
  }

  predicate Ticks(c: Clock) {
    c.verified <= c.measured <= c.created
  }

  /** A derivation may outlive its parent by the time it took plus at most one second. */
  lemma ExpiryBound(parent: Token, r: Request, c: Clock)
    requires Ticks(c) && Attenuate(parent, r, c).Ok?
    ensures Expiry(Attenuate(parent, r, c).value) <= Expiry(parent) + (c.created - c.verified) + 1.0
  {
    var left := parent.ttl as real - (c.measured - parent.createdAt);
    if left >= 0.0 {
      assert left.Floor as real <= left;
    }
  }

  /** With one clock reading, it outlives its parent exactly when less than a second is left. */
  lemma OutlivesExactly(parent: Token, r: Request, now: real)
    requires Attenuate(parent, r, Clock(now, now, now)).Ok?
    ensures Expiry(Attenuate(parent, r, Clock(now, now, now)).value) > Expiry(parent) <==> Expiry(parent) - now < 1.0
  {
    var left := parent.ttl as real - (now - parent.createdAt);
    assert left >= 0.0 && left.Floor as real <= left < (left.Floor + 1) as real;
    if left >= 1.0 {
      assert left.Floor >= 1;
    } else {
      assert left.Floor == 0;
    }
  }

  /** It can: half a second before its parent expires, a token is derived for a whole second. */
  lemma DerivedOutlives()
    ensures var parent := Token("a", "b", ["facts:read"], [Verified], 1, "shared", 10, 0.0);
            var r := Request("c", None, None, None);
            Attenuate(parent, r, Clock(9.5, 9.5, 9.5)).Ok?
            && Expiry(parent) == 10.0 && Expiry(Attenuate(parent, r, Clock(9.5, 9.5, 9.5)).value) == 10.5
  {
    assert (10.0 - 9.5).Floor == 0;
  }

  // ---------------------------------------------------------------- chains

  datatype Link = Link(request: Request, clock: Clock)

  /** Each token is derived from the one before it. */
  predicate Chain(tokens: seq<Token>, links: seq<Link>) {
    && |tokens| == |links| + 1
    && forall i | 0 <= i < |links| :: Attenuate(tokens[i], links[i].request, links[i].clock) == Ok(tokens[i + 1])
  }

  lemma NoMoreTransitive(a: Token, b: Token, c: Token)
    requires NoMore(c, b) && NoMore(b, a)
    ensures NoMore(c, a)
  {
  }

  /** Attenuation never amplifies, along chains of any length: each token's scopes and states
      are non-empty parts of every ancestor's, its hops are no more than any ancestor's, and
      audience and visibility are the root's. */
  lemma {:induction false} ChainNeverAmplifies(tokens: seq<Token>, links: seq<Link>, i: nat, j: nat)
    requires Chain(tokens, links) && WellFormed(tokens[0]) && i <= j < |tokens|
    requires forall k | 0 <= k < |links| :: AsksSomething(links[k].request)
    ensures WellFormed(tokens[j]) && NoMore(tokens[j], tokens[i])
    decreases j
  {
    if j > 0 {
      ChainNeverAmplifies(tokens, links, if i < j then i else j - 1, j - 1);
      DerivationAmplifiesExactly(tokens[j - 1], links[j - 1].request, links[j - 1].clock);
      assert AsksSomething(links[j - 1].request) && NoMore(tokens[j], tokens[j - 1]);
      if i < j {
        NoMoreTransitive(tokens[i], tokens[j - 1], tokens[j]);
      }
    }
  }

  /** Time spent inside the first n derivations. */
  function Latency(links: seq<Link>, n: nat): real
    requires n <= |links|
  {
    if n == 0 then 0.0 else Latency(links, n - 1) + (links[n - 1].clock.created - links[n - 1].clock.verified)
  }

  /** A token n derivations below a root expires no later than the root's expiry, plus n
      seconds, plus the time the derivations took. */
  lemma {:induction false} ChainExpiry(tokens: seq<Token>, links: seq<Link>, n: nat)
    requires Chain(tokens, links) && n < |tokens| && forall k | 0 <= k < |links| :: Ticks(links[k].clock)
    ensures Expiry(tokens[n]) <= Expiry(tokens[0]) + n as real + Latency(links, n)
  {
    if n > 0 {
      ChainExpiry(tokens, links, n - 1);
      assert Attenuate(tokens[n - 1], links[n - 1].request, links[n - 1].clock) == Ok(tokens[n]);
      ExpiryBound(tokens[n - 1], links[n - 1].request, links[n - 1].clock);
    }
  }

  // ---------------------------------------------------------------- the manager

  /** How a token was derived. */
  datatype Origin = Origin(parent: string, link: Link)

  class PassManager {
    var tokens: map<string, Token>
    ghost var origins: map<string, Origin>

    /** Every stored token is well-formed, and every derived one is the derivation recorded
        for it from a parent that is still stored unchanged. */
    ghost predicate Valid()
      reads this
    {
      && (forall id | id in tokens :: WellFormed(tokens[id]))
      && (forall id | id in origins ::
            && id in tokens && origins[id].parent in tokens
            && var Origin(parent, link) := origins[id];
               Attenuate(tokens[parent], link.request, link.clock) == Ok(tokens[id]))
    }

    constructor ()
      ensures Valid() && tokens == map[] && origins == map[]
    {
      tokens, origins := map[], map[];
    }

    method IssuePass(id: string, subject: string, audience: string, scopes: seq<string>, states: seq<EpistemicState>,
                     maxHops: int, visibility: string, ttl: int, now: real) returns (r: Result<Token, Refusal>)
      requires Valid() && id !in tokens
      modifies this`tokens
      ensures Valid()
      ensures r == Issue(subject, audience, scopes, states, maxHops, visibility, ttl, now)
      ensures tokens == if r.Ok? then old(tokens)[id := r.value] else old(tokens)
    {
      var granted := if scopes == [] then DEFAULT_SCOPES else scopes;
      var allowed := if states == [] then DEFAULT_STATES else states;
      var hops := if maxHops < 5 then maxHops else 5;
      if hops < 1 { return Err(HopsOutOfRange); }
      var token := Token(subject, audience, granted, allowed, hops, visibility, ttl, now);
      tokens := tokens[id := token];
      return Ok(token);
    }

    method VerifyPass(id: string, now: real) returns (r: Option<Token>)
      ensures r == if id in tokens && !Expired(tokens[id], now) then Some(tokens[id]) else None
    {
      if id !in tokens || now - tokens[id].createdAt > tokens[id].ttl as real { return None; }
      return Some(tokens[id]);
    }

    method AttenuatePass(parentId: string, id: string, q: Request, c: Clock) returns (r: Result<Token, Refusal>)
      requires Valid() && id !in tokens
      modifies this
      ensures Valid()
      ensures r == if parentId in old(tokens) then Attenuate(old(tokens)[parentId], q, c) else Err(InvalidParent)
      ensures tokens == if r.Ok? then old(tokens)[id := r.value] else old(tokens)
      ensures origins == if r.Ok? then old(origins)[id := Origin(parentId, Link(q, c))] else old(origins)
    {
      hide Issue, Expired, Truncate, WellFormed, Subset;
      var verified := VerifyPass(parentId, c.verified);
      if verified.None? { return Err(InvalidParent); }
      var parent := verified.value;
      InheritedIsPart(parent);
      var finalScopes := parent.scopes;
      if q.scopes.Some? {
        if !Subset(q.scopes.value, parent.scopes) { return Err(ScopeViolation); }
        finalScopes := q.scopes.value;
      }
      var finalStates := parent.states;
      if q.states.Some? {
        if !Subset(q.states.value, parent.states) { return Err(StateViolation); }
        finalStates := q.states.value;
      }
      var finalHops := parent.maxHops;
      if q.maxHops.Some? {
        if q.maxHops.value > parent.maxHops { return Err(HopViolation); }
        finalHops := q.maxHops.value;
      }
      var elapsed := c.measured - parent.createdAt;
      var remaining := Max(1, Truncate(parent.ttl as real - elapsed));
      r := IssuePass(id, q.subject, parent.audience, finalScopes, finalStates, finalHops, parent.visibility, remaining,
                     c.created);
      assert r == Attenuate(parent, q, c);
      hide Attenuate;
      if r.Ok? {
        origins := origins[id := Origin(parentId, Link(q, c))];
      }
    }

    /** Ids of a line of descent held by the manager. */
    ghost predicate Descent(ids: seq<string>)
      reads this
    {
      && ids != [] && ids[0] in tokens
      && forall k | 0 < k < |ids| :: ids[k] in origins && origins[ids[k]].parent == ids[k - 1]
    }

    /** Along every line of descent in the store, of any length, nothing is amplified. */
    lemma DescentNeverAmplifies(ids: seq<string>)
      requires Valid() && Descent(ids)
      requires forall k | 0 < k < |ids| :: AsksSomething(origins[ids[k]].link.request)
      ensures forall k | 0 <= k < |ids| :: ids[k] in tokens
      ensures forall i, j | 0 <= i <= j < |ids| :: WellFormed(tokens[ids[j]]) && NoMore(tokens[ids[j]], tokens[ids[i]])
    {
      hide Attenuate, WellFormed, NoMore, AsksSomething;
      forall k | 0 <= k < |ids| ensures ids[k] in tokens {
        assert k > 0 ==> ids[k] in origins;
      }
      var chain, links := Tokens(tokens, ids), Links(origins, ids);
      forall i | 0 <= i < |links| ensures Attenuate(chain[i], links[i].request, links[i].clock) == Ok(chain[i + 1]) {
        assert origins[ids[i + 1]].parent == ids[i];
      }
      forall i, j | 0 <= i <= j < |ids| ensures WellFormed(tokens[ids[j]]) && NoMore(tokens[ids[j]], tokens[ids[i]]) {
        assert WellFormed(chain[0]) && Chain(chain, links);
        ChainNeverAmplifies(chain, links, i, j);
        assert chain[j] == tokens[ids[j]] && chain[i] == tokens[ids[i]];
      }
    }
  }

  function Tokens(m: map<string, Token>, ids: seq<string>): seq<Token>
    requires forall k | 0 <= k < |ids| :: ids[k] in m
  {
    seq(|ids|, k requires 0 <= k < |ids| => m[ids[k]])
  }

  ghost function Links(m: map<string, Origin>, ids: seq<string>): seq<Link>
    requires ids != [] && forall k | 0 < k < |ids| :: ids[k] in m
  {
    seq(|ids| - 1, k requires 0 <= k < |ids| - 1 => m[ids[k + 1]].link)
  }
}
