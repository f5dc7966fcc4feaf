/** Verification of API keys in auth.py, with its cache of identities.

    verify_token is suspended once, while it asks Odoo, so it is two atomic sections: Begin up to
    the request and Finish from the response on. */
module IdentityCache {
  import opened Wrappers
  import opened Json

  /** The digest that the cache is keyed by; SHA-256 is taken as injective. */
  datatype Digest = Digest(of: string)

  /** userId may be a boolean: Python counts those as integers. */
  datatype Identity = Identity(database: string, userId: Json, login: Json, profile: string)

  datatype CachedIdentity = CachedIdentity(identity: Identity, expiresAt: real)

  datatype AccessToken = AccessToken(token: string, identity: Identity)

  /** What comes back from Odoo; a broken one raises an exception. */
  datatype Response = Refused | Broken | Payload(body: Json)

  /** The checks of verify_token on a response body. */
  function Identified(body: Json): Option<Identity> {
    if !body.Obj? || Get(body.fields, "ok") != Bool(true) then None
    else
      var data := Get(body.fields, "data");
      if !data.Obj? then None
      else
        var database, userId := Get(data.fields, "database"), Get(data.fields, "user_id");
        var profile := Get(data.fields, "profile");
        if !database.Str? || !(userId.Int? || userId.Bool?) || !profile.Str? then None
        else Some(Identity(database.s, userId, Get(data.fields, "login"), profile.s))
  }

  type Cache = map<Digest, CachedIdentity>

  function Pruned(cache: Cache, now: real): Cache {
    map d | d in cache && cache[d].expiresAt > now :: cache[d]
  }

  function Hit(cache: Cache, token: string): Option<AccessToken> {
    if Digest(token) in cache then Some(AccessToken(token, cache[Digest(token)].identity)) else None
  }

  function Stored(cache: Cache, token: string, identity: Identity, now: real, cacheSeconds: nat): Cache {
    if cacheSeconds == 0 then cache
    else cache[Digest(token) := CachedIdentity(identity, now + cacheSeconds as real)]
  }

  /** Nothing at all stands for an exception. */
  datatype Verdict = Verified(access: AccessToken) | Denied | Raised

  function Judge(token: string, response: Response): Verdict {
    match response
    case Refused => Denied
    case Broken => Raised
    case Payload(body) =>
      match Identified(body)
      case None => Denied
      case Some(identity) => Verified(AccessToken(token, identity))
  }

  class OdooApiKeyVerifier {
    const cacheSeconds: nat
    var cache: Cache

    constructor (cacheSeconds: nat)
      ensures this.cacheSeconds == cacheSeconds && cache == map[]
    {
      this.cacheSeconds, cache := cacheSeconds, map[];
    }

    method Begin(token: string, now: real) returns (hit: Option<AccessToken>)
      modifies this
      ensures cache == Pruned(old(cache), now) && hit == Hit(cache, token)
    {
      var expired := set d | d in cache && cache[d].expiresAt <= now;
      while expired != {}
        invariant expired <= cache.Keys
        invariant forall d :: d in expired ==> cache[d].expiresAt <= now
        invariant forall d :: d in old(cache) ==> d in cache || old(cache)[d].expiresAt <= now
        invariant forall d :: d in cache ==> d in old(cache) && cache[d] == old(cache)[d]
        invariant forall d :: d in cache && cache[d].expiresAt <= now ==> d in expired
        decreases |expired|
      {
        var digest :| digest in expired;
        cache := cache - {digest};
        expired := expired - {digest};
      }
      assert cache == Pruned(old(cache), now);
      var digest := Digest(token);
      if digest in cache {
        return Some(AccessToken(token, cache[digest].identity));
      }
      hit := None;
    }

    method Finish(token: string, response: Response, now: real) returns (verdict: Verdict)
      modifies this
      ensures verdict == Judge(token, response)
      ensures cache ==
              if verdict.Verified? then Stored(old(cache), token, verdict.access.identity, now, cacheSeconds)
              else old(cache)
    {
      match response {
        case Refused => verdict := Denied;
        case Broken => verdict := Raised;
        case Payload(body) =>
          var identity := Identified(body);
          if identity.None? {
            return Denied;
          }
          if cacheSeconds != 0 {
            cache := cache[Digest(token) := CachedIdentity(identity.value, now + cacheSeconds as real)];
          }
          verdict := Verified(AccessToken(token, identity.value));
      }
    }
  }
}

/** Any interleaving of verifications that share the cache, over a clock that never goes back. */
module IdentityProtocol {
  import opened Wrappers
  import opened Json
  import opened IdentityCache

  /** Odoo's response to the question whom a token stands for. */
  datatype Answer = Answer(token: string, response: Response, at: real)

  /** The response confirms the identity: its body says that all is well and gives, under "data", the
      database, the user and the profile, each of its type, and the login if there is one. */
  ghost predicate Confirms(response: Response, identity: Identity) {
    && response.Payload? && response.body.Obj?
    && var fields := response.body.fields;
       && "ok" in fields && fields["ok"] == Bool(true) && "data" in fields && fields["data"].Obj?
       && var data := fields["data"].fields;
          && "database" in data && data["database"] == Str(identity.database)
          && "profile" in data && data["profile"] == Str(identity.profile)
          && "user_id" in data && data["user_id"] == identity.userId && (identity.userId.Int? || identity.userId.Bool?)
          && identity.login == if "login" in data then data["login"] else Null
  }

  /** A response is taken for a confirmation exactly when it is one; a broken one raises. */
  lemma JudgedExactly(token: string, response: Response, identity: Identity)
    ensures Judge(token, response) == Verified(AccessToken(token, identity)) <==> Confirms(response, identity)
    ensures Judge(token, response) == Raised <==> response == Broken
    ensures Judge(token, response).Verified? ==> Judge(token, response).access.token == token
  {
  }

  /** A verification let a token in, by asking Odoo or from the cache. */
  datatype Admission = Admission(access: AccessToken, at: real, cached: bool)

  datatype System = System(
    cache: Cache,
    cacheSeconds: nat,
    clock: real,
    asking: seq<Option<string>>,
    answers: seq<Answer>,
    admitted: seq<Admission>)

  datatype Step = Begin(token: string, now: real) | Finish(i: nat, response: Response, now: real)

  predicate Enabled(s: System, step: Step) {
    match step
    case Begin(_, now) => s.clock <= now
    case Finish(i, _, now) => s.clock <= now && i < |s.asking| && s.asking[i].Some?
  }

  function Apply(s: System, step: Step): System
    requires Enabled(s, step)
  {
    match step
    case Begin(token, now) =>
      var cache := Pruned(s.cache, now);
      (match Hit(cache, token)
       case Some(access) => s.(cache := cache, clock := now, admitted := s.admitted + [Admission(access, now, true)])
       case None => s.(cache := cache, clock := now, asking := s.asking + [Some(token)]))
    case Finish(i, response, now) =>
      var token := s.asking[i].value;
      var s' := s.(clock := now, asking := s.asking[i := None], answers := s.answers + [Answer(token, response, now)]);
      (match Judge(token, response)
       case Verified(access) =>
         s'.(cache := Stored(s.cache, token, access.identity, now, s.cacheSeconds),
             admitted := s.admitted + [Admission(access, now, false)])
       case _ => s')
  }

  function Initial(cacheSeconds: nat, clock: real): System {
    System(map[], cacheSeconds, clock, [], [], [])
  }

  /** An identity Odoo gave for this very token, at a time from which the cache may still hold it. */
  ghost predicate ConfirmedAt(answers: seq<Answer>, access: AccessToken, at: real) {
    exists j :: 0 <= j < |answers| && answers[j].token == access.token && answers[j].at == at
                && Confirms(answers[j].response, access.identity)
  }

  lemma ConfirmedStays(answers: seq<Answer>, later: seq<Answer>, access: AccessToken, at: real)
    requires ConfirmedAt(answers, access, at) && answers <= later
    ensures ConfirmedAt(later, access, at)
  {
    hide Confirms;
    var j :| 0 <= j < |answers| && answers[j].token == access.token && answers[j].at == at
             && Confirms(answers[j].response, access.identity);
    assert later[j] == answers[j];
  }

  ghost predicate EntryOk(s: System, d: Digest)
    requires d in s.cache
  {
    var at := s.cache[d].expiresAt - s.cacheSeconds as real;
    ConfirmedAt(s.answers, AccessToken(d.of, s.cache[d].identity), at) && at <= s.clock
  }

  /** An admission is backed by a confirmation of the same token and identity: its own, or one that
      is younger than the cache's time to live. */
  ghost predicate Backed(s: System, a: Admission) {
    if a.cached
    then exists at: real :: ConfirmedAt(s.answers, a.access, at) && at <= a.at < at + s.cacheSeconds as real
    else ConfirmedAt(s.answers, a.access, a.at)
  }

  ghost predicate Inv(s: System) {
    && (forall d :: d in s.cache ==> EntryOk(s, d))
    && (s.cacheSeconds == 0 ==> s.cache == map[])
    && (forall k :: 0 <= k < |s.admitted| ==> Backed(s, s.admitted[k]))
  }

  lemma BackedStays(s: System, s': System, a: Admission)
    requires Backed(s, a) && s.answers <= s'.answers && s'.cacheSeconds == s.cacheSeconds
    ensures Backed(s', a)
  {
    if a.cached {
      var at: real :| ConfirmedAt(s.answers, a.access, at) && at <= a.at < at + s.cacheSeconds as real;
      ConfirmedStays(s.answers, s'.answers, a.access, at);
    } else {
      ConfirmedStays(s.answers, s'.answers, a.access, a.at);
    }
  }

  lemma BeginKeeps(s: System, token: string, now: real)
    requires Inv(s) && Enabled(s, Begin(token, now))
    ensures Inv(Apply(s, Begin(token, now)))
  {
    hide ConfirmedAt;
    var s' := Apply(s, Begin(token, now));
    forall d | d in s'.cache
      ensures EntryOk(s', d)
    {
      assert EntryOk(s, d);
    }
    forall k | 0 <= k < |s'.admitted|
      ensures Backed(s', s'.admitted[k])
    {
      if k < |s.admitted| {
        BackedStays(s, s', s.admitted[k]);
      } else {
        HitIsBacked(s, token, now);
      }
    }
  }

  lemma HitIsBacked(s: System, token: string, now: real)
    requires Inv(s) && s.clock <= now && Digest(token) in Pruned(s.cache, now)
    ensures Backed(s, Admission(Hit(Pruned(s.cache, now), token).value, now, true))
  {
    hide ConfirmedAt;
    assert EntryOk(s, Digest(token));
  }

  lemma FinishKeeps(s: System, i: nat, response: Response, now: real)
    requires Inv(s) && Enabled(s, Finish(i, response, now))
    ensures Inv(Apply(s, Finish(i, response, now)))
  {
    hide Judge;
    hide ConfirmedAt;
    var s', token := Apply(s, Finish(i, response, now)), s.asking[i].value;
    var judged := Judge(token, response);
    if judged.Verified? {
      NowConfirmed(s.answers, token, response, now);
    }
    forall d | d in s'.cache
      ensures EntryOk(s', d)
    {
      if d in s.cache && s'.cache[d] == s.cache[d] {
        assert EntryOk(s, d);
        ConfirmedStays(s.answers, s'.answers, AccessToken(d.of, s.cache[d].identity),
                       s.cache[d].expiresAt - s.cacheSeconds as real);
      }
    }
    forall k | 0 <= k < |s'.admitted|
      ensures Backed(s', s'.admitted[k])
    {
      if k < |s.admitted| {
        BackedStays(s, s', s.admitted[k]);
      }
    }
  }

  lemma NowConfirmed(answers: seq<Answer>, token: string, response: Response, now: real)
    requires Judge(token, response).Verified?
    ensures var access := Judge(token, response).access;
            access.token == token && ConfirmedAt(answers + [Answer(token, response, now)], access, now)
  {
    var access, later := Judge(token, response).access, answers + [Answer(token, response, now)];
    JudgedExactly(token, response, access.identity);
    hide Judge;
    hide Confirms;
    assert later[|answers|] == Answer(token, response, now);
  }

  /** A response lets its token in, and into the cache, exactly if it is a confirmation; any other lets
      nobody in and leaves the cache as it was. */
  lemma OnlyConfirmationsAdmit(s: System, i: nat, response: Response, now: real)
    requires Enabled(s, Finish(i, response, now))
    ensures var s' := Apply(s, Finish(i, response, now));
            if exists identity :: Confirms(response, identity) then
              && |s'.admitted| == |s.admitted| + 1 && s'.admitted[..|s.admitted|] == s.admitted
              && var a := s'.admitted[|s.admitted|];
                 a.access.token == s.asking[i].value && Confirms(response, a.access.identity) && a.at == now
            else s'.admitted == s.admitted && s'.cache == s.cache
  {
    hide Judge;
    hide Confirms;
    var token := s.asking[i].value;
    forall identity
      ensures Judge(token, response) == Verified(AccessToken(token, identity)) <==> Confirms(response, identity)
      ensures Judge(token, response).Verified? ==> Judge(token, response).access.token == token
    {
      JudgedExactly(token, response, identity);
    }
    if Judge(token, response).Verified? {
      assert Confirms(response, Judge(token, response).access.identity);
    }
  }

  ghost predicate Possible(s: System, steps: seq<Step>)
    decreases |steps|
  {
    steps != [] ==> Enabled(s, steps[0]) && Possible(Apply(s, steps[0]), steps[1..])
  }

  ghost function Run(s: System, steps: seq<Step>): System
    requires Possible(s, steps)
    decreases |steps|
  {
    if steps == [] then s else Run(Apply(s, steps[0]), steps[1..])
  }

  lemma {:induction false} RunKeeps(s: System, steps: seq<Step>)
    requires Inv(s) && Possible(s, steps)
    ensures Inv(Run(s, steps)) && Run(s, steps).cacheSeconds == s.cacheSeconds
    decreases |steps|
  {
    hide Inv;
    if steps != [] {
      match steps[0] {
        case Begin(token, now) => BeginKeeps(s, token, now);
        case Finish(i, response, now) => FinishKeeps(s, i, response, now);
      }
      RunKeeps(Apply(s, steps[0]), steps[1..]);
    }
  }

  /** Whatever verifications overlap: nobody is let in as anyone but whom Odoo said that very token
      is, at the time or less than the time to live before; and without one nothing is cached. */
  lemma CacheAgreesWithOdoo(cacheSeconds: nat, clock: real, steps: seq<Step>)
    requires Possible(Initial(cacheSeconds, clock), steps)
    ensures var s := Run(Initial(cacheSeconds, clock), steps);
            && (forall k :: 0 <= k < |s.admitted| ==> Backed(s, s.admitted[k]))
            && (cacheSeconds == 0 ==> s.cache == map[] && forall k :: 0 <= k < |s.admitted| ==> !s.admitted[k].cached)
  {
    RunKeeps(Initial(cacheSeconds, clock), steps);
    hide Run;
  }

  /** A key that Odoo confirms no later than some moment is admitted no later than that moment, or
      before the time to live after it has passed: revocation takes effect. */
  lemma RevocationTakesEffect(cacheSeconds: nat, clock: real, steps: seq<Step>, token: string, last: real)
    requires Possible(Initial(cacheSeconds, clock), steps)
    requires var s := Run(Initial(cacheSeconds, clock), steps);
             forall j :: 0 <= j < |s.answers| && s.answers[j].token == token && s.answers[j].at > last ==>
               forall identity :: !Confirms(s.answers[j].response, identity)
    ensures var s := Run(Initial(cacheSeconds, clock), steps);
            forall k :: 0 <= k < |s.admitted| && s.admitted[k].access.token == token ==>
              s.admitted[k].at <= last || s.admitted[k].at < last + cacheSeconds as real
  {
    RunKeeps(Initial(cacheSeconds, clock), steps);
    var s := Run(Initial(cacheSeconds, clock), steps);
    hide Run;
    forall k | 0 <= k < |s.admitted| && s.admitted[k].access.token == token
      ensures s.admitted[k].at <= last || s.admitted[k].at < last + cacheSeconds as real
    {
      assert Backed(s, s.admitted[k]);
    }
  }

  /** The cache still answers for a token, at least until some time. */
  ghost predicate Answers(s: System, token: string, until: real) {
    Digest(token) in s.cache && until <= s.cache[Digest(token)].expiresAt
  }

  lemma StepStillAnswers(s: System, step: Step, token: string, until: real)
    requires Enabled(s, step) && Answers(s, token, until) && step.now < until <= s.clock + s.cacheSeconds as real
    ensures Answers(Apply(s, step), token, until)
    ensures until <= Apply(s, step).clock + Apply(s, step).cacheSeconds as real
  {
  }

  /** The cache is worth having: once Odoo has confirmed a token, whatever other verifications come
      between, the token is admitted without asking again until the time to live has passed. */
  lemma {:induction false} ConfirmedOnceIsEnough(s: System, steps: seq<Step>, token: string, until: real, now: real)
    requires Possible(s, steps) && Answers(s, token, until) && until <= s.clock + s.cacheSeconds as real
    requires Run(s, steps).clock <= now < until
    ensures var s' := Run(s, steps);
            && Enabled(s', Begin(token, now))
            && var after := Apply(s', Begin(token, now));
               && after.asking == s'.asking && |after.admitted| == |s'.admitted| + 1
               && after.admitted[|s'.admitted|].cached && after.admitted[|s'.admitted|].access.token == token
    decreases |steps|
  {
    if steps != [] {
      ClockGrows(Apply(s, steps[0]), steps[1..]);
      StepStillAnswers(s, steps[0], token, until);
      ConfirmedOnceIsEnough(Apply(s, steps[0]), steps[1..], token, until, now);
    }
  }

  lemma {:induction false} ClockGrows(s: System, steps: seq<Step>)
    requires Possible(s, steps)
    ensures s.clock <= Run(s, steps).clock
    decreases |steps|
  {
    if steps != [] {
      ClockGrows(Apply(s, steps[0]), steps[1..]);
    }
  }

  /** What a confirmation leaves in the cache answers for the whole time to live. */
  lemma ConfirmationAnswers(s: System, i: nat, body: Json, identity: Identity, now: real)
    requires Enabled(s, Finish(i, Payload(body), now)) && Confirms(Payload(body), identity) && 0 < s.cacheSeconds
    ensures var s', token := Apply(s, Finish(i, Payload(body), now)), s.asking[i].value;
            && Answers(s', token, now + s.cacheSeconds as real) && s'.clock == now
            && Hit(s'.cache, token) == Some(AccessToken(token, identity))
  {
  }
}
