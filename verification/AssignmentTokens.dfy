/** Assignment tokens over whole runs: when is it invisible that expired ones are forgotten? */
module AssignmentTokens {
  import opened Wrappers
  import opened Assignment

  function Run(calls: seq<Call>, ttl: nat): Tokens {
    if calls == [] then map[] else After(Run(calls[..|calls| - 1], ttl), calls[|calls| - 1], ttl)
  }

  /** The same without ever forgetting an expired token. */
  function Kept(calls: seq<Call>, ttl: nat): Tokens {
    if calls == [] then map[]
    else KeptAfter(Kept(calls[..|calls| - 1], ttl), calls[|calls| - 1], ttl)
  }

  function KeptAfter(tokens: Tokens, call: Call, ttl: nat): Tokens {
    match call
    case Issue(uid, token, now) => tokens[token := Issued(uid, token, now + ttl)]
    case Resolve(_, _) => tokens
    case Clear => map[]
  }

  /**
   The last issue of this token was followed by no clearing, and by no call at or after its
   expiry.
   */
  ghost predicate Spared(calls: seq<Call>, ttl: nat, token: string) {
    exists i :: 0 <= i < |calls| && SparedSince(calls, ttl, token, i)
  }

  ghost predicate SparedSince(calls: seq<Call>, ttl: nat, token: string, i: nat)
    requires i < |calls|
  {
    && Issues(calls[i], token)
    && forall j | i < j < |calls| :: !Issues(calls[j], token) && !calls[j].Clear? && calls[j].now < calls[i].now + ttl
  }

  predicate Issues(call: Call, token: string) {
    call.Issue? && call.token == token
  }

  /** One more call. */
  lemma SparedSnoc(calls: seq<Call>, call: Call, ttl: nat, token: string, i: nat)
    requires i < |calls|
    ensures SparedSince(calls + [call], ttl, token, i) <==>
            SparedSince(calls, ttl, token, i) && !Issues(call, token) && !call.Clear? && call.now < calls[i].now + ttl
  {
    var all := calls + [call];
    assert all[|calls|] == call && forall j | 0 <= j < |calls| :: all[j] == calls[j];
  }

  /** The tokens still held are the spared ones, with the values they were issued with. */
  lemma {:induction false} HeldIffSpared(calls: seq<Call>, ttl: nat, token: string)
    ensures token in Run(calls, ttl) <==> Spared(calls, ttl, token)
    ensures token in Run(calls, ttl) ==> token in Kept(calls, ttl) && Run(calls, ttl)[token] == Kept(calls, ttl)[token]
    ensures forall i | 0 <= i < |calls| && SparedSince(calls, ttl, token, i) ::
              token in Kept(calls, ttl) && Kept(calls, ttl)[token].expiresAt == calls[i].now + ttl
  {
    if calls == [] {
    } else {
      var init, last := calls[..|calls| - 1], calls[|calls| - 1];
      assert calls == init + [last];
      HeldIffSpared(init, ttl, token);
      forall i | 0 <= i < |init|
        ensures SparedSince(calls, ttl, token, i) <==>
                SparedSince(init, ttl, token, i) && !Issues(last, token) && !last.Clear? && last.now < init[i].now + ttl
      {
        SparedSnoc(init, last, ttl, token, i);
      }
      SparedLast(init, last, ttl, token);
    }
  }

  lemma SparedLast(init: seq<Call>, last: Call, ttl: nat, token: string)
    ensures SparedSince(init + [last], ttl, token, |init|) <==> Issues(last, token)
    ensures Spared(init + [last], ttl, token) <==>
            Issues(last, token) || exists i :: 0 <= i < |init| && SparedSince(init + [last], ttl, token, i)
  {
    var calls := init + [last];
    assert calls[|init|] == last;
    if Issues(last, token) {
      assert SparedSince(calls, ttl, token, |init|);
    }
  }

  /** Pruning is invisible at a time if and only if every token that would be good then was spared. */
  lemma PruningIsInvisibleIff(calls: seq<Call>, ttl: nat, now: nat)
    ensures Live(Run(calls, ttl), now) == Live(Kept(calls, ttl), now) <==>
            forall token | token in Live(Kept(calls, ttl), now) :: Spared(calls, ttl, token)
  {
    var held, kept := Live(Run(calls, ttl), now), Live(Kept(calls, ttl), now);
    forall token
      ensures token in held <==> token in kept && Spared(calls, ttl, token)
      ensures token in held ==> held[token] == kept[token]
    {
      HeldIffSpared(calls, ttl, token);
    }
    if held == kept {
      forall token | token in kept
        ensures Spared(calls, ttl, token)
      {
        assert token in held;
      }
    }
  }

  /** No call came later than `now`. */
  predicate NotAfter(calls: seq<Call>, now: nat) {
    forall c <- calls :: c.Clear? || c.now <= now
  }

  /** So as long as the clock has not gone back, exactly the issued, uncleared and unexpired tokens resolve. */
  lemma PruningIsInvisible(calls: seq<Call>, ttl: nat, now: nat)
    requires NotAfter(calls, now)
    ensures Live(Run(calls, ttl), now) == Live(Kept(calls, ttl), now)
  {
    forall token | token in Live(Kept(calls, ttl), now)
      ensures Spared(calls, ttl, token)
    {
      LiveIsSpared(calls, ttl, now, token);
    }
    PruningIsInvisibleIff(calls, ttl, now);
  }

  lemma {:induction false} LiveIsSpared(calls: seq<Call>, ttl: nat, now: nat, token: string)
    requires NotAfter(calls, now) && token in Live(Kept(calls, ttl), now)
    ensures Spared(calls, ttl, token)
  {
    var init, last := calls[..|calls| - 1], calls[|calls| - 1];
    assert calls == init + [last] && last in calls && forall c <- init :: c in calls;
    SparedLast(init, last, ttl, token);
    if !Issues(last, token) {
      LiveIsSpared(init, ttl, now, token);
      var i :| 0 <= i < |init| && SparedSince(init, ttl, token, i);
      HeldIffSpared(init, ttl, token);
      SparedSnoc(init, last, ttl, token, i);
    }
  }

  /** With a clock that goes back it shows: a token is forgotten at 61 and would have been good at 0. */
  lemma PruningShowsWhenTheClockGoesBack(uid: string, token: string)
    ensures var calls := [Issue(uid, token, 0), Resolve(token, 61)];
            Lookup(Live(Run(calls, 60), 0), token) == None && Lookup(Live(Kept(calls, 60), 0), token) == Some(uid)
  {
    var calls := [Issue(uid, token, 0), Resolve(token, 61)];
    assert calls[..1] == [calls[0]] && calls[..1][..0] == [];
    assert Run([calls[0]], 60) == map[token := Issued(uid, token, 60)];
    assert Kept([calls[0]], 60) == map[token := Issued(uid, token, 60)];
  }
}
