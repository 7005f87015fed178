/** The secret updater of one pool: an endless loop that keeps a registration token in a secret,
    with its three waiting times, against an API that is slow and fails. */
module TokenUpdater {
  import opened Base

  const MARGIN: Duration := 5 * MINUTE

  // The expires-at annotation: text that does not parse, or a date-time of section 5.6 of RFC 3339.
  // Go's time.RFC3339 layout prints no fraction, so that a stamp is a whole number of seconds.
  datatype Stamp = Garbage | Seconds(s: int)

  function Format(t: Time): Stamp {
    Seconds(t / SECOND)
  }

  function Parse(stamp: Stamp): Option<Time> {
    match stamp
    case Garbage => None
    case Seconds(s) => Some(s * SECOND)
  }

  /** A stored expiry is early by less than a second and never late. */
  lemma StoredExpiry(t: Time)
    ensures Parse(Format(t)).Some? && t - SECOND < Parse(Format(t)).value <= t
  {
  }

  // expiresAt is the annotation, token the instant at which the stored token really expires.
  datatype Secret = Secret(expiresAt: Option<Stamp>, token: Option<Time>)

  /** needUpdate: None when an update is due, else the time to wait for. It is due exactly when the secret
      shows no expiry, or one that is less than the margin away. */
  function NotBefore(s: Secret, now: Time): (r: Option<Time>)
    ensures r.Some? ==> now <= r.value && s.expiresAt.Some? && Parse(s.expiresAt.value) == Some(r.value + MARGIN)
    ensures r.None? ==>
              s.expiresAt.None? || Parse(s.expiresAt.value).None? || Parse(s.expiresAt.value).value - now < MARGIN
  {
    if s.expiresAt.None? || Parse(s.expiresAt.value).None? then None
    else
      var updateTime := Parse(s.expiresAt.value).value - MARGIN;
      if now > updateTime then None else Some(updateTime)
  }

  datatype Get = Found | NotFound | GetFailed

  // What one turn of the loop meets: how long each part takes, and what the two APIs answer. tail is
  // the time from the check to the making of the token (or to the failure of the request, or to the
  // next clock reading when nothing is due), and patch the time from there to the end of the patch call.
  datatype Turn = Turn(
    fetch: Duration,
    get: Get,
    check: Duration,
    tail: Duration,
    createOk: bool,
    lifetime: Duration,
    patch: Duration,
    patchOk: bool
  )

  ghost predicate Real(t: Turn) {
    t.fetch >= 0 && t.check >= 0 && t.tail >= 0 && t.patch >= 0 && t.lifetime > 0
  }

  // The loop and its books. issued holds the creation times of the tokens that were stored; fails
  // counts the failed turns since the last one that did not, lag their latency (and that of the calls
  // after the event that the next wake-up is reckoned from), mostFails and worst are the maxima so
  // far; lapsed tells that a stored token outlived its validity.
  datatype Updater = Updater(
    now: Time,
    wait: Duration,
    secret: Option<Secret>,
    issued: seq<Time>,
    fails: nat,
    lag: Duration,
    mostFails: nat,
    worst: Duration,
    lapsed: bool
  )

  function Lapses(s: Option<Secret>, t: Time): bool {
    s.Some? && s.value.token.Some? && s.value.token.value <= t
  }

  function Fail(u: Updater, end: Time, latency: Duration, wait: Duration): Updater {
    u.(now := end, wait := wait, fails := u.fails + 1, lag := u.lag + latency,
       mostFails := Max(u.mostFails, u.fails + 1), worst := Max(u.worst, u.lag + latency),
       lapsed := u.lapsed || Lapses(u.secret, end))
  }

  // When the turn gets to know the secret.
  function Woken(u: Updater, t: Turn): Time {
    u.now + Max(0, u.wait) + t.fetch
  }

  predicate Issues(u: Updater, t: Turn) {
    t.get.Found? && u.secret.Some? && NotBefore(u.secret.value, Woken(u, t) + t.check).None?
    && t.createOk && t.patchOk
  }

  function Next(u: Updater, t: Turn): Updater {
    var woken := Woken(u, t);
    if t.get.NotFound? || (t.get.Found? && u.secret.None?) then Fail(u, woken, t.fetch, SECOND)
    else if t.get.GetFailed? then Fail(u, woken, t.fetch, MINUTE)
    else
      var checked := woken + t.check;
      var end := checked + t.tail;
      var notBefore := NotBefore(u.secret.value, checked);
      if notBefore.Some? then
        u.(now := end, wait := notBefore.value - end, fails := 0, lag := t.tail,
           worst := Max(u.worst, t.tail), lapsed := u.lapsed || Lapses(u.secret, end))
      else if !t.createOk then Fail(u, end, t.fetch + t.check + t.tail, MINUTE)
      else if !t.patchOk then Fail(u, end + t.patch, t.fetch + t.check + t.tail + t.patch, MINUTE)
      else
        var expiry := end + t.lifetime;
        u.(now := end + t.patch, wait := SECOND,
           secret := Some(Secret(Some(Format(expiry)), Some(expiry))),
           issued := u.issued + [end],
           fails := 0, lag := t.patch,
           worst := Max(u.worst, u.lag + t.fetch + t.check + t.tail + t.patch),
           lapsed := u.lapsed || Lapses(u.secret, end + t.patch))
  }

  function Run(u: Updater, turns: seq<Turn>): Updater {
    if turns == [] then u else Next(Run(u, turns[..|turns| - 1]), turns[|turns| - 1])
  }

  /** The loop of the process, for as many turns as it gets before it is cancelled. */
  class UpdateProcess {
    var view: Updater

    constructor (now: Time, secret: Option<Secret>)
      ensures view == Updater(now, SECOND, secret, [], 0, 0, 0, 0, false)
    {
      view := Updater(now, SECOND, secret, [], 0, 0, 0, 0, false);
    }

    method Retry(now: Time, latency: Duration, wait: Duration)
      modifies this
      ensures view == Fail(old(view), now, latency, wait)
    {
      view := Fail(view, now, latency, wait);
    }

    /** The body of the loop, from the timer to the next setting of the waiting time. */
    method OneTurn(t: Turn)
      modifies this
      ensures view == Next(old(view), t)
    {
      var now := view.now + Max(0, view.wait) + t.fetch;
      if t.get.NotFound? || (t.get.Found? && view.secret.None?) {
        Retry(now, t.fetch, SECOND);
        return;
      } else if t.get.GetFailed? {
        Retry(now, t.fetch, MINUTE);
        return;
      }

      now := now + t.check;
      var s := view.secret.value;
      var due := s.expiresAt.None? || Parse(s.expiresAt.value).None?;
      var updateTime := 0;
      if !due {
        updateTime := Parse(s.expiresAt.value).value - MARGIN;
        due := now > updateTime;
      }
      now := now + t.tail;
      if !due {
        view := view.(now := now, wait := updateTime - now, fails := 0, lag := t.tail,
                      worst := Max(view.worst, t.tail), lapsed := view.lapsed || Lapses(view.secret, now));
        return;
      }

      var latency := t.fetch + t.check + t.tail;
      if !t.createOk {
        Retry(now, latency, MINUTE);
        return;
      }
      var created := now;
      now, latency := now + t.patch, latency + t.patch;
      if !t.patchOk {
        Retry(now, latency, MINUTE);
        return;
      }
      var expiry := created + t.lifetime;
      view := view.(now := now, wait := SECOND,
                    secret := Some(Secret(Some(Format(expiry)), Some(expiry))),
                    issued := view.issued + [created],
                    fails := 0, lag := t.patch, worst := Max(view.worst, view.lag + latency),
                    lapsed := view.lapsed || Lapses(view.secret, now));
    }

    method Loop(turns: seq<Turn>)
      modifies this
      ensures view == Run(old(view), turns)
    {
      hide Next;
      ghost var start := view;
      for i := 0 to |turns|
        invariant view == Run(start, turns[..i])
      {
        assert turns[..i + 1][..i] == turns[..i];
        OneTurn(turns[i]);
      }
      assert turns[..|turns|] == turns;
    }
  }

  // When the stored token is due, and the instant that the waking-up after it is reckoned from.
  function DueFrom(made: Time, expiry: Time): Time {
    Max(Parse(Format(expiry)).value - MARGIN, made + SECOND)
  }

  function Expiry(u: Updater): Time
    requires u.secret.Some? && u.secret.value.token.Some?
  {
    u.secret.value.token.value
  }

  // A token of validity L or more was stored last, and the next wake-up is in time: at the margin,
  // or one second after the token was made, plus a minute for each failed turn and all the latency.
  ghost predicate Fresh(u: Updater, L: Duration) {
    && u.issued != [] && u.secret.Some? && u.secret.value.token.Some?
    && u.secret.value.expiresAt == Some(Format(Expiry(u)))
    && Expiry(u) >= u.issued[|u.issued| - 1] + L
    && u.now + Max(0, u.wait) <= DueFrom(u.issued[|u.issued| - 1], Expiry(u)) + u.fails * MINUTE + u.lag
    && 0 <= u.lag <= u.worst && u.fails <= u.mostFails && !u.lapsed
  }

  /** k failed turns in a row with less than this latency are harmless. */
  predicate Tolerable(L: Duration, k: nat, latency: Duration) {
    k * MINUTE + latency <= MARGIN && SECOND + k * MINUTE + latency <= L
  }

  // The wake-up comes early enough for the turn to end before the token expires.
  lemma InTime(u: Updater, L: Duration, k: nat, latency: Duration, more: Duration)
    requires Fresh(u, L) && Tolerable(L, k, latency)
    requires u.fails <= k && 0 <= more && u.lag + more < latency
    ensures u.now + Max(0, u.wait) + more < Expiry(u)
  {
    StoredExpiry(Expiry(u));
    assert u.fails * MINUTE <= k * MINUTE by {
      assert MINUTE == 60_000_000_000;
    }
  }

  lemma FailKeepsFresh(u: Updater, L: Duration, k: nat, limit: Duration, latency: Duration, wait: Duration)
    requires Fresh(u, L) && Tolerable(L, k, limit) && latency >= 0 && (wait == SECOND || wait == MINUTE)
    requires u.fails < k && u.lag + latency < limit
    ensures Fresh(Fail(u, u.now + Max(0, u.wait) + latency, latency, wait), L)
  {
    InTime(u, L, k, limit, latency);
    assert (u.fails + 1) * MINUTE == u.fails * MINUTE + MINUTE;
    assert SECOND <= MINUTE;
  }

  lemma IssuedKeepsFresh(u: Updater, t: Turn, L: Duration)
    requires Real(t) && t.lifetime >= L && Issues(u, t) && !Next(u, t).lapsed && u.lag >= 0
    ensures Fresh(Next(u, t), L)
  {
  }

  lemma FreshBooks(u: Updater, L: Duration)
    requires Fresh(u, L)
    ensures u.secret.Some? && u.secret.value.token.Some? && u.fails <= u.mostFails && 0 <= u.lag <= u.worst && !u.lapsed
  {
  }

  lemma IdleKeepsFresh(u: Updater, t: Turn, L: Duration, k: nat, latency: Duration)
    requires Fresh(u, L) && Real(t) && Tolerable(L, k, latency)
    requires t.get.Found? && NotBefore(u.secret.value, Woken(u, t) + t.check).Some? && t.tail < latency
    ensures Fresh(Next(u, t), L)
  {
    StoredExpiry(Expiry(u));
    assert k * MINUTE >= 0;
  }

  lemma NextKeepsFresh(u: Updater, t: Turn, L: Duration, k: nat, latency: Duration)
    requires Fresh(u, L) && Real(t) && t.lifetime >= L && Tolerable(L, k, latency)
    requires Next(u, t).mostFails <= k && Next(u, t).worst < latency
    ensures Fresh(Next(u, t), L)
  {
    hide Fresh, Tolerable;
    var v := Next(u, t);
    FreshBooks(u, L);
    var checked := Woken(u, t) + t.check;
    if t.get.NotFound? {
      FailKeepsFresh(u, L, k, latency, t.fetch, SECOND);
    } else if t.get.GetFailed? {
      FailKeepsFresh(u, L, k, latency, t.fetch, MINUTE);
    } else if NotBefore(u.secret.value, checked).Some? {
      IdleKeepsFresh(u, t, L, k, latency);
    } else if !t.createOk {
      FailKeepsFresh(u, L, k, latency, t.fetch + t.check + t.tail, MINUTE);
    } else if !t.patchOk {
      FailKeepsFresh(u, L, k, latency, t.fetch + t.check + t.tail + t.patch, MINUTE);
    } else {
      InTime(u, L, k, latency, t.fetch + t.check + t.tail + t.patch);
      IssuedKeepsFresh(u, t, L);
    }
  }

  lemma MaximaGrow(u: Updater, t: Turn)
    ensures u.mostFails <= Next(u, t).mostFails && u.worst <= Next(u, t).worst && (u.lapsed ==> Next(u, t).lapsed)
  {
  }

  /** Token freshness, in general: from any state with a fresh token, as long as no more than k turns
      fail in a row and no chain of turns takes that much latency, the stored token never lapses. */
  lemma {:induction false} StaysFresh(u: Updater, turns: seq<Turn>, L: Duration, k: nat, latency: Duration)
    requires Fresh(u, L) && Tolerable(L, k, latency)
    requires forall t :: t in turns ==> Real(t) && t.lifetime >= L
    requires Run(u, turns).mostFails <= k && Run(u, turns).worst < latency
    ensures Fresh(Run(u, turns), L) && !Run(u, turns).lapsed
  {
    if turns != [] {
      var n := |turns| - 1;
      MaximaGrow(Run(u, turns[..n]), turns[n]);
      StaysFresh(u, turns[..n], L, k, latency);
      NextKeepsFresh(Run(u, turns[..n]), turns[n], L, k, latency);
    }
  }

  // The books opened anew: the failures, latency and lapses from now on.
  function Anew(u: Updater): Updater {
    u.(mostFails := u.fails, worst := u.lag, lapsed := false)
  }

  // Opening the books anew changes nothing but the books.
  predicate SameLoop(u: Updater, v: Updater) {
    v == u.(mostFails := v.mostFails, worst := v.worst, lapsed := v.lapsed)
  }

  lemma BooksAreIdle(u: Updater, v: Updater, t: Turn)
    requires SameLoop(u, v)
    ensures SameLoop(Next(u, t), Next(v, t))
  {
  }

  lemma {:induction false} AnewIsTheSameLoop(u: Updater, turns: seq<Turn>)
    ensures SameLoop(Run(u, turns), Run(Anew(u), turns))
  {
    if turns != [] {
      var n := |turns| - 1;
      AnewIsTheSameLoop(u, turns[..n]);
      BooksAreIdle(Run(u, turns[..n]), Run(Anew(u), turns[..n]), turns[n]);
    }
  }

  /** Every turn that stores a token starts a fresh life, whatever went before: failures, latency and
      lapsed tokens included. */
  lemma IssuedIsFresh(u: Updater, t: Turn, L: Duration)
    requires Real(t) && t.lifetime >= L && Issues(u, t)
    ensures Fresh(Anew(Next(u, t)), L)
  {
  }

  lemma {:induction false} RunConcat(u: Updater, a: seq<Turn>, b: seq<Turn>)
    ensures Run(u, a + b) == Run(Run(u, a), b)
  {
    hide Next;
    if b == [] {
      assert a + b == a;
    } else {
      var n := |b| - 1;
      RunConcat(u, a, b[..n]);
      assert (a + b)[..|a| + n] == a + b[..n];
    }
  }

  // A fresh token is valid now.
  lemma FreshIsValid(u: Updater, L: Duration, k: nat, latency: Duration)
    requires Fresh(u, L) && Tolerable(L, k, latency) && u.mostFails <= k && u.worst < latency
    ensures u.secret.Some? && u.secret.value.token.Some? && u.now < u.secret.value.token.value
  {
    InTime(u, L, k, latency, 0);
  }

  /** Token freshness from a process start: let any turns go by, then one that stores a token. As long as
      after it no more than k turns fail in a row and no chain of turns takes that much latency, no
      token that is in the secret from then on lapses there. */
  lemma FreshAfterIssuance(u: Updater, before: seq<Turn>, t: Turn, turns: seq<Turn>, L: Duration, k: nat, latency: Duration)
    requires Issues(Run(u, before), t) && Real(t) && t.lifetime >= L && Tolerable(L, k, latency)
    requires forall x :: x in turns ==> Real(x) && x.lifetime >= L
    requires var v := Run(Anew(Run(u, before + [t])), turns); v.mostFails <= k && v.worst < latency
    ensures var end := Run(u, before + [t] + turns);
            && SameLoop(end, Run(Anew(Run(u, before + [t])), turns))
            && !Run(Anew(Run(u, before + [t])), turns).lapsed
            && end.secret.Some? && end.secret.value.token.Some? && end.now < end.secret.value.token.value
  {
    hide Next, Issues, Real, Tolerable, Fresh;
    assert (before + [t])[..|before|] == before;
    assert Run(u, before + [t]) == Next(Run(u, before), t);
    var v := Run(u, before + [t]);
    RunConcat(u, before + [t], turns);
    AnewIsTheSameLoop(v, turns);
    IssuedIsFresh(Run(u, before), t, L);
    StaysFresh(Anew(v), turns, L, k, latency);
    FreshIsValid(Run(Anew(v), turns), L, k, latency);
  }

  /** Four failures in a row with under a minute of latency never let a token lapse, for tokens valid
      for at least five minutes and one second, from the first issuance of a process on. */
  lemma FourFailuresAreHarmless(u: Updater, before: seq<Turn>, t: Turn, turns: seq<Turn>, L: Duration)
    requires Issues(Run(u, before), t) && Real(t) && t.lifetime >= L && L >= MARGIN + SECOND
    requires forall x :: x in turns ==> Real(x) && x.lifetime >= L
    requires var v := Run(Anew(Run(u, before + [t])), turns); v.mostFails <= 4 && v.worst < MINUTE
    ensures !Run(Anew(Run(u, before + [t])), turns).lapsed
    ensures var end := Run(u, before + [t] + turns);
            end.secret.Some? && end.secret.value.token.Some? && end.now < end.secret.value.token.value
  {
    hide Run, Issues, Real;
    FreshAfterIssuance(u, before, t, turns, L, 4, MINUTE);
  }

  lemma {:induction false} FourFailures(u: Updater) returns (turns: seq<Turn>)
    ensures |turns| == 4 && forall t :: t in turns ==> Real(t) && t.lifetime == 6 * MINUTE
    ensures Run(u, turns) ==
              u.(
              now := u.now + Max(0, u.wait) + 3 * MINUTE, wait := MINUTE, fails := u.fails + 4,
              mostFails := Max(u.mostFails, u.fails + 4), worst := Max(u.worst, u.lag),
              lapsed := u.lapsed || Lapses(u.secret, u.now + Max(0, u.wait) + 3 * MINUTE))
  {
    var f := Turn(0, GetFailed, 0, 0, false, 6 * MINUTE, 0, false);
    turns := [f, f, f, f];
    assert turns[..3][..2] == turns[..2] && turns[..2][..1] == turns[..1] && turns[..1][..0] == [];
    assert Run(u, turns[..1]) == Next(u, f);
    assert Run(u, turns[..2]) == Next(Next(u, f), f);
    assert Run(u, turns[..3]) == Next(Next(Next(u, f), f), f);
    assert Run(u, turns) == Next(Next(Next(Next(u, f), f), f), f);
  }

  /** The extra second is needed: for every validity above five minutes and below five minutes and a
      second there is a run of four failures with under a minute of latency whose token lapses. */
  lemma ShortTokensLapse(L: Duration) returns (u: Updater, turns: seq<Turn>)
    requires MARGIN < L < MARGIN + SECOND
    ensures Fresh(u, L) && (forall t :: t in turns ==> Real(t) && t.lifetime >= L)
    ensures Run(u, turns).mostFails <= 4 && Run(u, turns).worst < MINUTE && Run(u, turns).lapsed
  {
    u := Updater(0, SECOND, Some(Secret(Some(Format(L)), Some(L))), [0], 0, 0, 0, 0, false);
    StoredExpiry(L);
    var failed := FourFailures(u);
    var v := Run(u, failed);
    var slow := Turn(0, Found, 0, L - 4 * MINUTE - SECOND, true, L, 0, true);
    turns := failed + [slow];
    assert turns[..4] == failed;
    assert Run(u, turns) == Next(v, slow);
  }

  /** The rate: with tokens valid for L or more and nobody else editing the secret, two tokens that
      were stored one after the other were made more than L - 5 min - 1 s apart. */
  ghost predicate Spaced(u: Updater, L: Duration) {
    && (forall i :: 0 < i < |u.issued| ==> u.issued[i] - u.issued[i - 1] > L - MARGIN - SECOND)
    && (u.issued != [] ==>
          && u.secret.Some? && u.secret.value.token.Some?
          && u.secret.value.token.value >= u.issued[|u.issued| - 1] + L
          && u.secret.value.expiresAt == Some(Format(u.secret.value.token.value)))
  }

  lemma NextKeepsSpaced(u: Updater, t: Turn, L: Duration)
    requires Spaced(u, L) && Real(t) && t.lifetime >= L
    ensures Spaced(Next(u, t), L)
  {
    if Issues(u, t) && u.issued != [] {
      StoredExpiry(u.secret.value.token.value);
      assert Next(u, t).issued[|u.issued|] - u.issued[|u.issued| - 1] > L - MARGIN - SECOND;
    }
  }

  lemma {:induction false} IssuanceRate(u: Updater, turns: seq<Turn>, L: Duration)
    requires u.issued == []
    requires forall t :: t in turns ==> Real(t) && t.lifetime >= L
    ensures Spaced(Run(u, turns), L)
  {
    if turns != [] {
      var n := |turns| - 1;
      IssuanceRate(u, turns[..n], L);
      NextKeepsSpaced(Run(u, turns[..n]), turns[n], L);
    }
  }

  lemma {:induction false} SpacedSpan(times: seq<Time>, gap: Duration, i: nat, j: nat)
    requires i <= j < |times|
    requires forall k :: 0 < k < |times| ==> times[k] - times[k - 1] > gap
    ensures times[j] - times[i] >= (j - i) * gap
  {
    if i < j {
      SpacedSpan(times, gap, i, j - 1);
    }
  }

  /** So the number of tokens stored within any span of time has a linear bound. */
  lemma IssuanceCount(u: Updater, turns: seq<Turn>, L: Duration, i: nat, j: nat)
    requires u.issued == []
    requires forall t :: t in turns ==> Real(t) && t.lifetime >= L
    requires i <= j < |Run(u, turns).issued|
    ensures (j - i) * (L - MARGIN - SECOND) <= Run(u, turns).issued[j] - Run(u, turns).issued[i]
  {
    IssuanceRate(u, turns, L);
    SpacedSpan(Run(u, turns).issued, L - MARGIN - SECOND, i, j);
  }

  // When the loop next wakes up.
  function Waking(u: Updater): Time {
    u.now + Max(0, u.wait)
  }

  // The secret asks for an update at this time: it shows no readable expiry, or is inside the margin.
  predicate Due(s: Secret, now: Time) {
    match s.expiresAt
    case None => true
    case Some(Garbage) => true
    case Some(Seconds(e)) => now > e * SECOND - 5 * MINUTE
  }

  // What a turn comes to: the secret is missing, unreadable, in order, or due for an update, which
  // then fails or not.
  predicate Misses(u: Updater, t: Turn) {
    t.get.NotFound? || (t.get.Found? && u.secret.None?)
  }

  predicate Idles(u: Updater, t: Turn) {
    t.get.Found? && u.secret.Some? && !Due(u.secret.value, Waking(u) + t.fetch + t.check)
  }

  predicate Tries(u: Updater, t: Turn) {
    t.get.Found? && u.secret.Some? && Due(u.secret.value, Waking(u) + t.fetch + t.check)
  }

  // The turn ends in a failure.
  predicate Failing(u: Updater, t: Turn) {
    Misses(u, t) || t.get.GetFailed? || (Tries(u, t) && !(t.createOk && t.patchOk))
  }

  lemma DueExactly(s: Secret, now: Time)
    ensures Due(s, now) <==> NotBefore(s, now).None?
  {
  }

  /** The waiting times, exactly: one second after a missing secret and after an issuance, one minute
      after any other failure, and with nothing to do until five minutes before the stored expiry. The
      times are reckoned from the end of the turn. */
  lemma WaitsExactly(u: Updater, t: Turn)
    requires Real(t)
    ensures var v := Next(u, t);
            && (Misses(u, t) ==> v.now == Waking(u) + t.fetch && Waking(v) == v.now + SECOND)
            && (t.get.GetFailed? ==> v.now == Waking(u) + t.fetch && Waking(v) == v.now + MINUTE)
            && (Idles(u, t) ==>
                  && v.now == Waking(u) + t.fetch + t.check + t.tail
                  && Waking(v) == Max(v.now, u.secret.value.expiresAt.value.s * SECOND - 5 * MINUTE))
            && (Tries(u, t) && !t.createOk ==>
                  v.now == Waking(u) + t.fetch + t.check + t.tail && Waking(v) == v.now + MINUTE)
            && (Tries(u, t) && t.createOk ==>
                  && v.now == Waking(u) + t.fetch + t.check + t.tail + t.patch
                  && Waking(v) == v.now + (if t.patchOk then SECOND else MINUTE))
  {
    if u.secret.Some? {
      DueExactly(u.secret.value, Waking(u) + t.fetch + t.check);
    }
  }

  /** ... and what a turn stores: a token and its expiry exactly when an update was due and both calls
      succeeded, else nothing. */
  lemma StoresExactly(u: Updater, t: Turn)
    ensures var v := Next(u, t);
            if Tries(u, t) && t.createOk && t.patchOk then
              var made := Waking(u) + t.fetch + t.check + t.tail;
              && v.issued == u.issued + [made]
              && v.secret == Some(Secret(Some(Seconds((made + t.lifetime) / SECOND)), Some(made + t.lifetime)))
            else
              v.issued == u.issued && v.secret == u.secret
  {
    if u.secret.Some? {
      DueExactly(u.secret.value, Waking(u) + t.fetch + t.check);
    }
  }

  // How many turns of this run ended in a failure.
  function Failures(u: Updater, turns: seq<Turn>): nat {
    if turns == [] then 0
    else
      var n := |turns| - 1;
      Failures(u, turns[..n]) + (if Failing(Run(u, turns[..n]), turns[n]) then 1 else 0)
  }

  // The loop sleeps until the secret is due, or past that.
  predicate Dormant(u: Updater) {
    u.secret.Some? &&
    match u.secret.value.expiresAt
    case Some(Seconds(e)) => Waking(u) >= e * SECOND - 5 * MINUTE
    case _ => true
  }

  // The turn gets to know the secret a moment after the loop wakes up.
  predicate Slow(t: Turn) {
    t.fetch + t.check > 0
  }

  lemma CountOneTurn(u: Updater, t: Turn)
    requires Real(t) && Slow(t)
    ensures var v := Next(u, t);
            2 * |v.issued| + (if Failing(u, t) then 1 else 0) + (if Dormant(v) then 1 else 0)
              >= 2 * |u.issued| + (if Dormant(u) then 1 else 0) + 1
  {
    hide Next;
    WaitsExactly(u, t);
    StoresExactly(u, t);
  }

  /** The loop does not spin: without failures every second turn issues a token, and each failure adds one
      turn. */
  lemma {:induction false} TurnsAreFew(u: Updater, turns: seq<Turn>)
    requires forall t :: t in turns ==> Real(t) && Slow(t)
    ensures |turns| <= 2 * (|Run(u, turns).issued| - |u.issued|) + Failures(u, turns) + (if Dormant(Run(u, turns)) then 1 else 0)
  {
    hide Next, Failing, Dormant;
    if turns != [] {
      var n := |turns| - 1;
      TurnsAreFew(u, turns[..n]);
      CountOneTurn(Run(u, turns[..n]), turns[n]);
    }
  }

  // Every stored token was made in the time of the run.
  lemma {:induction false} IssuedInTime(u: Updater, turns: seq<Turn>)
    requires forall t :: t in turns ==> Real(t)
    requires u.issued == []
    ensures Run(u, turns).now >= u.now
    ensures forall i :: 0 <= i < |Run(u, turns).issued| ==> u.now <= Run(u, turns).issued[i] <= Run(u, turns).now
  {
    hide Next;
    if turns != [] {
      var n := |turns| - 1;
      IssuedInTime(u, turns[..n]);
      WaitsExactly(Run(u, turns[..n]), turns[n]);
      StoresExactly(Run(u, turns[..n]), turns[n]);
    }
  }

  lemma Scaled(a: int, b: int, gap: int)
    requires a <= b && gap >= 0
    ensures a * gap <= b * gap
  {
  }

  lemma Doubled(x: int, gap: int)
    ensures 2 * x * gap == 2 * (x * gap)
  {
  }

  lemma Spread(turns: nat, tokens: nat, failures: nat, gap: Duration, span: Duration)
    requires turns <= 2 * tokens + failures + 1 && gap >= 0 && span >= 0
    requires tokens > 0 ==> (tokens - 1) * gap <= span
    ensures (turns - 3 - failures) * gap <= 2 * span
  {
    var x := tokens - 1;
    if tokens > 0 {
      Scaled(turns - 3 - failures, 2 * x, gap);
      Doubled(x, gap);
    } else {
      Scaled(turns - 3 - failures, 0, gap);
    }
  }

  /** So the number of turns without a failure, and with it the load on both APIs, has a linear bound in
      time, for tokens valid for L or more. */
  lemma TurnRate(u: Updater, turns: seq<Turn>, L: Duration)
    requires u.issued == [] && L > MARGIN + SECOND
    requires forall t :: t in turns ==> Real(t) && Slow(t) && t.lifetime >= L
    ensures (|turns| - 3 - Failures(u, turns)) * (L - MARGIN - SECOND) <= 2 * (Run(u, turns).now - u.now)
  {
    hide Run, Failures, Dormant, Real, Slow;
    TurnsAreFew(u, turns);
    IssuedInTime(u, turns);
    var v := Run(u, turns);
    var k := |v.issued|;
    if k > 0 {
      IssuanceCount(u, turns, L, 0, k - 1);
    }
    Spread(|turns|, k, Failures(u, turns), L - MARGIN - SECOND, v.now - u.now);
  }
}
