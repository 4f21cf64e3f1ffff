/**
 Renewing the Rancher token: which token is used, when the next wake-up is due, and under which
 conditions an unexpired token is at hand at every instant. Instants and durations are in
 nanoseconds.
 */
module TokenRenewal {
  import opened Kube

  const MILLISECOND := 1_000_000
  const HOUR := 3_600_000 * MILLISECOND
  const RENEWAL_OFFSET := 24 * HOUR
  const ONE_YEAR_MILLIS := 365 * 24 * 3_600_000

  const MAX64 := 0x7fff_ffff_ffff_ffff
  const TWO64 := 0x1_0000_0000_0000_0000

  /** The value that 64-bit signed arithmetic keeps of n. */
  function Wrap(n: int): int {
    (n + MAX64 + 1) % TWO64 - MAX64 - 1
  }

  /** time.Duration(ttl) * time.Millisecond */
  function FromMillis(ttl: int): int {
    Wrap(ttl * MILLISECOND)
  }

  /** The conversion is exact exactly up to some 292 years, so it is for the requested year. */
  lemma ConversionExactIff(ttl: nat)
    requires ttl <= MAX64
    ensures FromMillis(ttl) == ttl * MILLISECOND <==> ttl <= 9_223_372_036_854
    ensures FromMillis(ONE_YEAR_MILLIS) == ONE_YEAR_MILLIS * MILLISECOND == 365 * RENEWAL_OFFSET
  {
    if ttl * MILLISECOND > MAX64 {
      assert Wrap(ttl * MILLISECOND) <= MAX64;
    }
  }

  // ---------------------------------------------------------------- FindToken

  /** The keys of the secret that matter; "" is a missing key. */
  datatype Secret = Secret(baseURL: string, token: string, next: string, state: string)

  /** A decoded token: its text and when it expires. */
  datatype Token = Token(text: string, expiresAt: int)

  /** Panic is the use of the missing base token, Exit the end of the process. */
  datatype Found = Found(token: Token) | MissingKey | Panic | Exit

  /** What Rancher answers at one instant: a token's expiry, or None when it cannot be decoded. */
  type Answers = string -> Option<int>

  /** The stored next token counts only under the current cluster state. */
  predicate NextCounts(sec: Secret, state: string) {
    sec.state == state && sec.next != ""
  }

  /** A token is found with both keys present and a base token that decodes. */
  predicate Finds(sec: Secret, answers: Answers) {
    sec.baseURL != "" && sec.token != "" && answers(sec.token).Some?
  }

  method FindToken(sec: Secret, state: string, answers: Answers) returns (r: Found)
    ensures r.Found? <==> Finds(sec, answers)
    ensures r.MissingKey? <==> sec.baseURL == "" || sec.token == ""
    ensures r.Panic? <==> sec.baseURL != "" && sec.token != "" && answers(sec.token).None?
                          && NextCounts(sec, state) && answers(sec.next).Some?
    ensures r.Found? ==> r.token == Later(sec, state, answers)
  {
    if sec.baseURL == "" || sec.token == "" { return MissingKey; }
    var token: Option<Token> := None;
    var expiresAt := answers(sec.token);
    if expiresAt.Some? {
      token := Some(Token(sec.token, expiresAt.value));
    }
    if sec.state == state && sec.next != "" {
      var nextExpiresAt := answers(sec.next);
      if nextExpiresAt.Some? {
        if token.None? { return Panic; }
        if nextExpiresAt.value > token.value.expiresAt {
          token := Some(Token(sec.next, nextExpiresAt.value));
        }
      }
    }
    if token.None? { return Exit; }
    return Found(token.value);
  }

  /** The later-expiring usable token; at a tie the base token. */
  function Later(sec: Secret, state: string, answers: Answers): Token
    requires answers(sec.token).Some?
  {
    var base := Token(sec.token, answers(sec.token).value);
    if NextCounts(sec, state) && answers(sec.next).Some? && answers(sec.next).value > base.expiresAt
    then Token(sec.next, answers(sec.next).value) else base
  }

  lemma LaterIsLatest(sec: Secret, state: string, answers: Answers)
    requires answers(sec.token).Some?
    ensures var r := Later(sec, state, answers);
            && answers(r.text) == Some(r.expiresAt)
            && (r.text == sec.token || (NextCounts(sec, state) && r.text == sec.next))
            && answers(sec.token).value <= r.expiresAt
            && (NextCounts(sec, state) && answers(sec.next).Some? ==> answers(sec.next).value <= r.expiresAt)
  {
  }

  // ---------------------------------------------------------------- Rancher

  /** A token Rancher issued: since when it exists, the expiry Rancher reports, if it reports one,
      and its lifetime in milliseconds. */
  datatype Issue = Issue(from: int, until: Option<int>, ttl: int)

  /** Every token that exists at some instant of a run. */
  type Rancher = map<string, Issue>

  predicate Alive(rancher: Rancher, text: string, t: int) {
    && text in rancher && rancher[text].from <= t
    && (rancher[text].until.Some? ==> t < rancher[text].until.value)
  }

  /** decodeToken at the instant t: an expired token is refused, and one without an expiry is
      reported to last its lifetime from now on. */
  function AnswersAt(rancher: Rancher, t: int): Answers {
    (text: string) =>
      if !Alive(rancher, text, t) then None
      else if rancher[text].until.Some? then rancher[text].until
      else Some(t + FromMillis(rancher[text].ttl))
  }

  lemma AliveBetween(rancher: Rancher, text: string, t: int, u: int, v: int)
    requires t <= u <= v && Alive(rancher, text, t) && Alive(rancher, text, v)
    ensures Alive(rancher, text, u)
  {
  }

  /** What is found is the base token, or the next one if it was issued under the current state, still
      decodes and lasts longer. */
  lemma FoundMeans(sec: Secret, state: string, answers: Answers)
    requires Finds(sec, answers)
    ensures sec.baseURL != "" && sec.token != "" && answers(sec.token).Some?
    ensures var base, next := answers(sec.token).value, if sec.next != "" && sec.state == state then answers(sec.next) else None;
            Later(sec, state, answers)
            == if next.Some? && base < next.value then Token(sec.next, next.value) else Token(sec.token, base)
  {
  }

  // ---------------------------------------------------------------- processToken

  /** What one pass meets: the cluster state, the instants of its start, of decoding the tokens and
      of its two clock readings, the token Rancher creates if asked (None: it refuses) with its
      lifetime and the instant of its creation, whether the secret is written and when, and the
      instant the result is handed back. */
  datatype Pass = Pass(
    state: string,
    begin: int,
    find: int,
    check: int,
    again: int,
    created: Option<(string, int)>,
    createdAt: int,
    patched: bool,
    stored: int,
    done: int)

  /** Wake: the next wake-up after d, with a token that expires at expiresAt, as measured or
      created at the instant at. A duration that is not positive is never queued. */
  datatype Result = Wake(d: int, expiresAt: int, at: int) | Error | Crash

  predicate Renewing(t: Token, p: Pass) {
    t.expiresAt - p.check < RENEWAL_OFFSET
  }

  /** The token a pass finds. */
  function InUse(sec: Secret, p: Pass, rancher: Rancher): Token
    requires Alive(rancher, sec.token, p.find)
  {
    Later(sec, p.state, AnswersAt(rancher, p.find))
  }

  /** What a pass over the secret comes to. */
  function Outcome(sec: Secret, p: Pass, rancher: Rancher): Result {
    if sec.baseURL == "" || sec.token == "" then Error
    else if !Alive(rancher, sec.token, p.find) then Crash
    else
      var t := InUse(sec, p, rancher);
      if !Renewing(t, p) then Wake(t.expiresAt - p.again - RENEWAL_OFFSET, t.expiresAt, p.again)
      else if p.created.None? || !p.patched then Error
      else
        var ttl := p.created.value.1;
        Wake(Wrap(FromMillis(ttl) - RENEWAL_OFFSET), p.createdAt + ttl * MILLISECOND, p.createdAt)
  }

  function SecretAfter(sec: Secret, p: Pass, rancher: Rancher): Secret {
    if Outcome(sec, p, rancher).Wake? && Renewing(InUse(sec, p, rancher), p)
    then sec.(next := p.created.value.0, state := p.state) else sec
  }

  class TokenRefresher {
    var secret: Secret

    constructor (secret: Secret)
      ensures this.secret == secret
    {
      this.secret := secret;
    }

    /** RenewToken */
    method RenewToken(p: Pass) returns (ttl: Option<int>)
      modifies this
      ensures ttl.Some? <==> p.created.Some? && p.patched
      ensures ttl.Some? ==> ttl.value == p.created.value.1
      ensures secret == if ttl.Some? then old(secret).(next := p.created.value.0, state := p.state) else old(secret)
    {
      if p.created.None? { return None; }
      if !p.patched { return None; }
      secret := secret.(next := p.created.value.0, state := p.state);
      return Some(p.created.value.1);
    }

    /** processToken; the result also says until when the token in use lasts. */
    method ProcessToken(p: Pass, rancher: Rancher) returns (r: Result)
      modifies this
      ensures r == Outcome(old(secret), p, rancher) && secret == SecretAfter(old(secret), p, rancher)
    {
      var found := FindToken(secret, p.state, AnswersAt(rancher, p.find));
      if found.MissingKey? { return Error; }
      if !found.Found? { return Crash; }
      var token := found.token;
      if token.expiresAt - p.check < RENEWAL_OFFSET {
        var ttl := RenewToken(p);
        if ttl.None? { return Error; }
        return Wake(Wrap(FromMillis(ttl.value) - RENEWAL_OFFSET), p.createdAt + ttl.value * MILLISECOND, p.createdAt);
      }
      return Wake(token.expiresAt - p.again - RENEWAL_OFFSET, token.expiresAt, p.again);
    }
  }

  // ---------------------------------------------------------------- the schedule

  /** A lifetime whose conversion and whose remainder after the offset are exact. */
  predicate OrdinaryTtl(ttl: int) {
    0 <= ttl <= 9_223_372_036_854
  }

  /** The wake-up is due exactly a renewal offset before the token expires, measured from the
      instant of the second clock reading or of the creation, whatever that reading is. */
  lemma WakeIsOneOffsetEarly(sec: Secret, p: Pass, rancher: Rancher)
    requires Outcome(sec, p, rancher).Wake? && (p.created.Some? ==> OrdinaryTtl(p.created.value.1))
    ensures var r := Outcome(sec, p, rancher);
            r.at + r.d == r.expiresAt - RENEWAL_OFFSET
  {
    if Renewing(InUse(sec, p, rancher), p) {
      var ttl := p.created.value.1;
      ConversionExactIff(ttl);
      assert -MAX64 <= ttl * MILLISECOND - RENEWAL_OFFSET <= MAX64;
    }
  }

  /** A pass stores a new token exactly when the one it finds has less than 24 hours left and Rancher
      issues one that can be stored, and fails exactly when it cannot. */
  lemma RenewsIff(sec: Secret, p: Pass, rancher: Rancher)
    requires Finds(sec, AnswersAt(rancher, p.find))
    ensures var left := Later(sec, p.state, AnswersAt(rancher, p.find)).expiresAt - p.check;
            var due := left < 24 * 3_600_000_000_000;
            && SecretAfter(sec, p, rancher) == (if due && p.created.Some? && p.patched
                                                then Secret(sec.baseURL, sec.token, p.created.value.0, p.state) else sec)
            && (Outcome(sec, p, rancher) == Error <==> due && (p.created.None? || !p.patched))
            && !Outcome(sec, p, rancher).Crash?
  {
  }

  /** The renewal stalls with this pass: a new token lasts no longer than the offset, or the second
      clock reading has reached the offset that the first had not. */
  predicate Stalls(sec: Secret, p: Pass, rancher: Rancher)
    requires Outcome(sec, p, rancher).Wake?
  {
    if Renewing(InUse(sec, p, rancher), p) then p.created.value.1 * MILLISECOND <= RENEWAL_OFFSET
    else InUse(sec, p, rancher).expiresAt - RENEWAL_OFFSET <= p.again
  }

  /** A pass is not queued again exactly when it stalls. */
  lemma StallsIff(sec: Secret, p: Pass, rancher: Rancher)
    requires Outcome(sec, p, rancher).Wake? && (p.created.Some? ==> OrdinaryTtl(p.created.value.1))
    ensures Outcome(sec, p, rancher).d <= 0 <==> Stalls(sec, p, rancher)
  {
    if Renewing(InUse(sec, p, rancher), p) {
      var ttl := p.created.value.1;
      ConversionExactIff(ttl);
      assert -MAX64 <= ttl * MILLISECOND - RENEWAL_OFFSET <= MAX64;
    }
  }

  /** Such readings exist: the two lie on both sides of the offset. */
  lemma StallHappens(sec: Secret, p: Pass, rancher: Rancher, e: int)
    requires sec.baseURL != "" && sec.token != "" && !NextCounts(sec, p.state)
    requires AnswersAt(rancher, p.find)(sec.token) == Some(e)
    requires p.check == e - RENEWAL_OFFSET && p.again == p.check + 1
    ensures Outcome(sec, p, rancher) == Wake(-1, e, p.again) && SecretAfter(sec, p, rancher) == sec
  {
  }

  /** The base token is never replaced: once Rancher no longer decodes it, no pass renews anything,
      however long the next token would still last. */
  lemma LostBaseIsFinal(sec: Secret, p: Pass, rancher: Rancher)
    requires sec.baseURL != "" && sec.token != ""
    ensures SecretAfter(sec, p, rancher).token == sec.token
    ensures !Alive(rancher, sec.token, p.find)
            ==> Outcome(sec, p, rancher) == Crash && SecretAfter(sec, p, rancher) == sec
  {
  }

  // ---------------------------------------------------------------- runs

  /** The secret after the first n passes. */
  function SecretAt(sec: Secret, ps: seq<Pass>, rancher: Rancher, n: nat): Secret
    requires n <= |ps|
  {
    if n == 0 then sec
    else SecretAfter(SecretAt(sec, ps, rancher, n - 1), ps[n - 1], rancher)
  }

  function ResultAt(sec: Secret, ps: seq<Pass>, rancher: Rancher, n: nat): Result
    requires n < |ps|
  {
    Outcome(SecretAt(sec, ps, rancher, n), ps[n], rancher)
  }

  /** How many passes have written by the instant t. */
  function Written(ps: seq<Pass>, t: int): (n: nat)
    ensures n <= |ps|
    ensures n > 0 ==> ps[n - 1].stored <= t
    ensures n < |ps| ==> t < ps[|ps| - 1].stored
    ensures n < |ps| ==> t < ps[n].stored
  {
    if |ps| == 0 || ps[|ps| - 1].stored <= t then |ps|
    else Written(ps[..|ps| - 1], t)
  }

  /** The secret as it is stored at the instant t of a run. */
  function StoredAt(sec: Secret, ps: seq<Pass>, rancher: Rancher, t: int): Secret {
    SecretAt(sec, ps, rancher, Written(ps, t))
  }

  /** How late the queue hands a pass out after it is due, how long a pass takes, and by how much a
      reported expiry falls short of creation plus lifetime: it is in whole seconds and comes from
      Rancher's clock. */
  datatype Bounds = Bounds(late: nat, work: nat, drift: nat)

  /** The instants of a pass are in order, and it takes no longer than allowed. */
  predicate Ordered(p: Pass, b: Bounds) {
    && p.begin <= p.find <= p.check <= p.again <= p.done && p.check <= p.createdAt <= p.stored <= p.done
    && p.find <= p.stored && p.done - p.begin <= b.work
  }

  /** A renewal in this pass succeeds, and Rancher keeps the new token for its lifetime. */
  predicate Renews(p: Pass, rancher: Rancher, b: Bounds) {
    && p.created.Some? && p.patched && OrdinaryTtl(p.created.value.1)
    && var (text, ttl) := p.created.value;
    && text != "" && text in rancher && rancher[text].from <= p.createdAt && rancher[text].until.Some?
    && p.createdAt + ttl * MILLISECOND - b.drift <= rancher[text].until.value
  }

  /** The pass n did not stall, and the next one began before its wake-up was late. */
  predicate Queued(sec: Secret, ps: seq<Pass>, rancher: Rancher, b: Bounds, n: nat)
    requires n + 1 < |ps|
  {
    var r := ResultAt(sec, ps, rancher, n);
    r.Wake? ==> && !Stalls(SecretAt(sec, ps, rancher, n), ps[n], rancher)
                && ps[n + 1].begin <= ps[n].done + r.d + b.late
  }

  /** A run under one cluster state in which renewals succeed and passes follow each other in time. */
  ghost predicate Timely(sec: Secret, ps: seq<Pass>, rancher: Rancher, b: Bounds, state: string) {
    && sec.baseURL != "" && sec.token != ""
    && (forall n :: 0 <= n < |ps| ==> Ordered(ps[n], b) && ps[n].state == state && Renews(ps[n], rancher, b))
    && (forall n :: 0 <= n < |ps| - 1 ==> ps[n].done <= ps[n + 1].begin && Queued(sec, ps, rancher, b, n))
  }

  lemma {:induction false} BaseStays(sec: Secret, ps: seq<Pass>, rancher: Rancher, n: nat)
    requires n <= |ps|
    ensures SecretAt(sec, ps, rancher, n).token == sec.token
    ensures SecretAt(sec, ps, rancher, n).baseURL == sec.baseURL
  {
    if n > 0 { BaseStays(sec, ps, rancher, n - 1); }
  }

  /** Whatever the passes do, a token is found at an instant exactly when the base token is alive
      then: a renewed token prolongs what is found, and never replaces it. */
  lemma FoundIffBaseLives(sec: Secret, ps: seq<Pass>, rancher: Rancher, t: int)
    requires sec.baseURL != "" && sec.token != ""
    ensures Finds(StoredAt(sec, ps, rancher, t), AnswersAt(rancher, t)) <==> Alive(rancher, sec.token, t)
  {
    BaseStays(sec, ps, rancher, Written(ps, t));
  }

  /** As long as the token of a pass lasts, whoever looks finds that token, or one that lasts longer. */
  lemma NextPassSeesToken(sec: Secret, p: Pass, rancher: Rancher, b: Bounds, t: int)
    requires Ordered(p, b) && Renews(p, rancher, b) && Outcome(sec, p, rancher).Wake?
    requires Alive(rancher, sec.token, t) && p.stored <= t < Outcome(sec, p, rancher).expiresAt - b.drift
    ensures Finds(SecretAfter(sec, p, rancher), AnswersAt(rancher, t))
    ensures Outcome(sec, p, rancher).expiresAt - b.drift
            <= Later(SecretAfter(sec, p, rancher), p.state, AnswersAt(rancher, t)).expiresAt
  {
    LaterIsLatest(SecretAfter(sec, p, rancher), p.state, AnswersAt(rancher, t));
    LaterIsLatest(sec, p.state, AnswersAt(rancher, p.find));
  }

  /** The pass n finds a token, with the base token alive before and after. */
  lemma PassSucceeds(sec: Secret, ps: seq<Pass>, rancher: Rancher, b: Bounds, state: string, n: nat, t: int)
    requires Timely(sec, ps, rancher, b, state) && n < |ps| && ps[n].stored <= t
    requires Alive(rancher, sec.token, ps[0].find) && Alive(rancher, sec.token, t)
    ensures ResultAt(sec, ps, rancher, n).Wake?
  {
    BaseStays(sec, ps, rancher, n);
    PassesInOrder(sec, ps, rancher, b, state, n);
    AliveBetween(rancher, sec.token, ps[0].find, ps[n].find, t);
  }

  lemma {:induction false} PassesInOrder(
      sec: Secret, ps: seq<Pass>, rancher: Rancher, b: Bounds, state: string, n: nat)
    requires Timely(sec, ps, rancher, b, state) && n < |ps|
    ensures ps[0].find <= ps[n].find
  {
    if n > 0 {
      PassesInOrder(sec, ps, rancher, b, state, n - 1);
      assert ps[n - 1].done <= ps[n - 1 + 1].begin;
    }
  }

  /** A token never runs low: in such a run, at every instant between the first and the last write,
      the token found in the secret as it is stored then still lasts for what the renewal offset
      leaves after a late hand-out, two passes and the drift. */
  lemma AlwaysAToken(sec: Secret, ps: seq<Pass>, rancher: Rancher, b: Bounds, state: string, t: int)
    requires Timely(sec, ps, rancher, b, state) && |ps| > 1 && ps[0].stored <= t < ps[|ps| - 1].stored
    requires Alive(rancher, sec.token, ps[0].find) && Alive(rancher, sec.token, t)
    requires b.late + 2 * b.work + b.drift < RENEWAL_OFFSET
    ensures var stored := StoredAt(sec, ps, rancher, t);
            && Finds(stored, AnswersAt(rancher, t))
            && RENEWAL_OFFSET - b.late - 2 * b.work - b.drift
               < Later(stored, state, AnswersAt(rancher, t)).expiresAt - t
  {
    var n := Written(ps, t);
    FirstIsWritten(ps, t);
    var before := SecretAt(sec, ps, rancher, n - 1);
    BaseStays(sec, ps, rancher, n - 1);
    PassSucceeds(sec, ps, rancher, b, state, n - 1, t);
    TokenOutlastsNextPass(sec, ps, rancher, b, state, n - 1);
    NextPassSeesToken(before, ps[n - 1], rancher, b, t);
  }

  lemma {:induction false} FirstIsWritten(ps: seq<Pass>, t: int)
    requires |ps| > 0 && ps[0].stored <= t
    ensures Written(ps, t) > 0
  {
    if |ps| > 1 && t < ps[|ps| - 1].stored { FirstIsWritten(ps[..|ps| - 1], t); }
  }

  /** The token in use after a pass outlasts the end of the next pass, by what the bounds leave of
      the renewal offset. */
  lemma TokenOutlastsNextPass(sec: Secret, ps: seq<Pass>, rancher: Rancher, b: Bounds, state: string, n: nat)
    requires Timely(sec, ps, rancher, b, state) && n + 1 < |ps| && ResultAt(sec, ps, rancher, n).Wake?
    ensures ps[n + 1].done + RENEWAL_OFFSET - b.late - 2 * b.work <= ResultAt(sec, ps, rancher, n).expiresAt
  {
    WakeIsOneOffsetEarly(SecretAt(sec, ps, rancher, n), ps[n], rancher);
    assert Queued(sec, ps, rancher, b, n);
  }
}
