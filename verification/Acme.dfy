/** The certificate renewal scheduler of node/internal/acme/acme.go. Critical sections run under one lock;
    a renewal that a timer started runs in three sections and gives the lock up between them. */
module Acme {
  import opened Common

  // Durations and times are whole seconds.
  const RENEW_BEFORE: int := 30 * 24 * 3600
  const RETRY_INTERVAL: int := 3600
  const MIN_DELAY: int := 60
  /** Go's zero time, the NextRenewAt of an entry that was never given one. */
  const ZERO_TIME: int := -62135596800

  /** `settings` stands for the e-mail, challenge, authority, port and paths of an entry. */
  datatype Entry = Entry(settings: string, nextRenewAt: int, failed: bool)

  datatype Alarm = Alarm(domain: string, armedAt: int, fireAt: int)

  /** The outcome of obtaining a certificate; a certificate that cannot be parsed has no known expiry. */
  datatype Outcome = Failure | Obtained(expiry: Option<int>)

  /** Where a renewal is: its timer fired, it has read its entry, or it has the outcome. */
  datatype Phase =
    | Fired(domain: string)
    | Read(domain: string, settings: string)
    | Issued(domain: string, outcome: Outcome)

  /** `timers` is the manager's map. Timers are numbered; `armed` are those that will still fire, `renewals`
      those that fired and whose function has not returned. */
  datatype State = State(managed: map<string, Entry>, timers: map<string, nat>, created: nat,
                         armed: map<nat, Alarm>, renewals: map<nat, Phase>)

  // ---------- the critical sections ----------

  /** renewalTime. */
  function RenewalTime(notAfter: int, now: int): int {
    if notAfter - RENEW_BEFORE < now + MIN_DELAY then now + MIN_DELAY else notAfter - RENEW_BEFORE
  }

  function Delay(nextRenewAt: int, now: int): int {
    if nextRenewAt - now <= 0 then MIN_DELAY else nextRenewAt - now
  }

  /** scheduleLocked: stopping a timer that already fired has no effect. */
  function Schedule(s: State, domain: string, nextRenewAt: int, now: int): State {
    s.(armed := (if domain in s.timers then s.armed - {s.timers[domain]}
      else s.armed)[s.created := Alarm(domain, now, now + Delay(nextRenewAt, now))],
       timers := s.timers[domain := s.created],
       created := s.created + 1)
  }

  function Manage(s: State, domain: string, entry: Entry, now: int): State {
    Schedule(s.(managed := s.managed[domain := entry]), domain, entry.nextRenewAt, now)
  }

  /** The effect of issueWithLogsLocked on the manager: none unless the certificate could be parsed. */
  function Issue(s: State, domain: string, settings: string, outcome: Outcome, now: int): State {
    if outcome.Obtained? && outcome.expiry.Some?
    then Manage(s, domain, Entry(settings, RenewalTime(outcome.expiry.value, now), false), now)
    else s
  }

  /** EnsureManagedCertificate. `existing` is the expiry of the certificate on disk, if it is readable;
      `later` is the time after a certificate was requested. */
  function Ensure(s: State, domain: string, settings: string, existing: Option<int>, outcome: Outcome, now: int,
      later: int): State
  {
    var entry := Entry(settings, if existing.Some? then RenewalTime(existing.value, now) else ZERO_TIME, false);
    if existing.Some? && entry.nextRenewAt - now > 0 then Manage(s, domain, entry, now)
    else
      var s' := Issue(s, domain, settings, outcome, later);
      match outcome
      case Failure => Manage(s', domain, Entry(settings, later + RETRY_INTERVAL, true), later)
      case Obtained(None) => Manage(s', domain, entry, later)
      case Obtained(Some(expiry)) => Manage(s', domain, Entry(settings, RenewalTime(expiry, later), false), later)
  }

  /** The last section of runScheduledRenewal. */
  function Rearm(s: State, domain: string, outcome: Outcome, now: int): State
    requires domain in s.managed
  {
    var current := s.managed[domain];
    match outcome
    case Failure => Manage(s, domain, current.(nextRenewAt := now + RETRY_INTERVAL, failed := true), now)
    case Obtained(None) => Manage(s, domain, current.(nextRenewAt := now + RETRY_INTERVAL, failed := true), now)
    case Obtained(Some(expiry)) =>
      Manage(s, domain, current.(nextRenewAt := RenewalTime(expiry, now), failed := false), now)
  }

  datatype Event =
    | EnsureCall(domain: string, settings: string, existing: Option<int>, outcome: Outcome, now: int, later: int)
    | IssueCall(domain: string, settings: string, outcome: Outcome, now: int)
    | Fire(timer: nat, now: int)
    | ReadEntry(timer: nat)
    | Request(timer: nat, outcome: Outcome, now: int)
    | Finish(timer: nat, now: int)

  function Next(s: State, e: Event): State {
    match e
    case EnsureCall(domain, settings, existing, outcome, now, later) =>
      Ensure(s, domain, settings, existing, outcome, now, later)
    case IssueCall(domain, settings, outcome, now) => Issue(s, domain, settings, outcome, now)
    case Fire(timer, now) =>
      if timer in s.armed && s.armed[timer].fireAt <= now
      then s.(armed := s.armed - {timer}, renewals := s.renewals[timer := Fired(s.armed[timer].domain)]) else s
    case ReadEntry(timer) =>
      if timer in s.renewals && s.renewals[timer].Fired? then
        var domain := s.renewals[timer].domain;
        s.(renewals := if domain in s.managed then s.renewals[timer := Read(domain, s.managed[domain].settings)]
          else s.renewals - {timer})
      else s
    case Request(timer, outcome, now) =>
      if timer in s.renewals && s.renewals[timer].Read? then
        var r := s.renewals[timer];
        Issue(s, r.domain, r.settings, outcome, now).(renewals := s.renewals[timer := Issued(r.domain, outcome)])
      else s
    case Finish(timer, now) =>
      if timer in s.renewals && s.renewals[timer].Issued? then
        var r := s.renewals[timer];
        var s' := s.(renewals := s.renewals - {timer});
        if r.domain in s.managed then Rearm(s', r.domain, r.outcome, now) else s'
      else s
  }

  // ---------- renewals are never lost ----------

  /** An armed timer will renew the domain, or a renewal is on its way that will arm one again. */
  ghost predicate Covered(s: State, domain: string) {
    || (domain in s.timers && s.timers[domain] in s.armed)
    || exists r :: r in s.renewals && s.renewals[r].domain == domain
  }

  ghost predicate Sound(s: State) {
    && (forall d :: d in s.managed ==> Covered(s, d))
    && (forall t :: t in s.armed ==> t < s.created && s.armed[t].domain in s.managed
                                     && Get(s.timers, s.armed[t].domain) == Some(t) &&
                                        s.armed[t].fireAt > s.armed[t].armedAt)
    && (forall t :: t in s.renewals ==> t < s.created && t !in s.armed && s.renewals[t].domain in s.managed)
    && (forall d :: d in s.timers ==> s.timers[d] < s.created)
    && (forall d :: d in s.timers && s.timers[d] in s.armed ==> s.armed[s.timers[d]].domain == d)
  }

  lemma ManageCovers(s: State, domain: string, entry: Entry, now: int, d: string)
    requires Sound(s) && d in Manage(s, domain, entry, now).managed
    ensures Covered(Manage(s, domain, entry, now), d)
  {
    hide Delay;
    var s' := Manage(s, domain, entry, now);
    if d != domain {
      assert Covered(s, d);
      if d in s.timers && s.timers[d] in s.armed {
        assert s'.timers[d] == s.timers[d] && s.armed[s.timers[d]].domain == d;
      } else {
        var r :| r in s.renewals && s.renewals[r].domain == d;
        assert r in s'.renewals;
      }
    }
  }

  lemma DelayIsPositive(at: int, now: int)
    ensures Delay(at, now) > 0
  {
  }

  lemma ManageSound(s: State, domain: string, entry: Entry, now: int)
    requires Sound(s)
    ensures Sound(Manage(s, domain, entry, now))
    ensures var s' := Manage(s, domain, entry, now);
            domain in s'.timers && s'.timers[domain] in s'.armed
            && s'.armed[s'.timers[domain]] == Alarm(domain, now, now + Delay(entry.nextRenewAt, now))
  {
    hide Covered, Delay;
    forall d | d in Manage(s, domain, entry, now).managed ensures Covered(Manage(s, domain, entry, now), d) {
      ManageCovers(s, domain, entry, now, d);
    }
    DelayIsPositive(entry.nextRenewAt, now);
  }

  /** Every managed domain has a timer that was armed for its renewal time. */
  ghost predicate AllScheduled(s: State, now: int) {
    forall d :: d in s.managed ==>
      d in s.timers && s.timers[d] in s.armed &&
        s.armed[s.timers[d]] ==
          Alarm(d, now, if s.managed[d].nextRenewAt > now then s.managed[d].nextRenewAt else now + 60)
  }

  lemma NothingManaged(now: int)
    ensures var s := State(map[], map[], 0, map[], map[]); Sound(s) && AllScheduled(s, now)
  {
  }

  lemma ManageSchedulesAll(s: State, domain: string, entry: Entry, now: int)
    requires Sound(s) && AllScheduled(s, now)
    ensures AllScheduled(Manage(s, domain, entry, now), now)
  {
    hide Sound, Manage;
    var s' := Manage(s, domain, entry, now);
    ManageSound(s, domain, entry, now);
    ManageSchedules(s, domain, entry, now);
    forall d | d in s'.managed && d != domain
      ensures d in s'.timers && s'.timers[d] in s'.armed
      ensures d in s.managed && s'.managed[d] == s.managed[d] && s'.armed[s'.timers[d]] == s.armed[s.timers[d]]
    {
      assert Get(s'.managed, d) == Get(s.managed, d) && Get(s'.timers, d) == Get(s.timers, d);
      assert s.armed[s.timers[d]].domain == d;
      assert Get(s'.armed, s.timers[d]) == Some(s.armed[s.timers[d]]);
    }
  }

  /** A renewal that is not finished yet can be relabelled or, once its domain is armed again, removed. */
  lemma FinishSound(s: State, timer: nat, entry: Entry, now: int)
    requires Sound(s) && timer in s.renewals
    ensures Sound(Manage(s.(renewals := s.renewals - {timer}), s.renewals[timer].domain, entry, now))
  {
    var domain := s.renewals[timer].domain;
    var a := Manage(s, domain, entry, now);
    ManageSound(s, domain, entry, now);
    var b := Manage(s.(renewals := s.renewals - {timer}), domain, entry, now);
    assert b == a.(renewals := a.renewals - {timer});
    forall d | d in b.managed ensures Covered(b, d) {
      assert Covered(a, d);
      if d != domain && !(d in a.timers && a.timers[d] in a.armed) {
        var r :| r in a.renewals && a.renewals[r].domain == d;
        assert r in b.renewals;
      }
    }
  }

  lemma RelabelSound(s: State, timer: nat, p: Phase)
    requires Sound(s) && timer in s.renewals && p.domain == s.renewals[timer].domain
    ensures Sound(s.(renewals := s.renewals[timer := p]))
  {
    var s' := s.(renewals := s.renewals[timer := p]);
    forall d | d in s'.managed ensures Covered(s', d) {
      assert Covered(s, d);
      if r :| r in s.renewals && s.renewals[r].domain == d {
        assert s'.renewals[r].domain == d;
      }
    }
  }

  lemma FireCovers(s: State, timer: nat, d: string)
    requires Sound(s) && timer in s.armed && d in s.managed
    ensures Covered(s.(armed := s.armed - {timer}, renewals := s.renewals[timer := Fired(s.armed[timer].domain)]), d)
  {
    var s' := s.(armed := s.armed - {timer}, renewals := s.renewals[timer := Fired(s.armed[timer].domain)]);
    assert Covered(s, d);
    if d == s.armed[timer].domain {
      assert s'.renewals[timer].domain == d;
    } else if d in s.timers && s.timers[d] in s.armed {
      assert s.timers[d] != timer;
    } else {
      var r :| r in s.renewals && s.renewals[r].domain == d;
      assert s'.renewals[r].domain == d;
    }
  }

  lemma FireSound(s: State, timer: nat)
    requires Sound(s) && timer in s.armed
    ensures Sound(s.(armed := s.armed - {timer}, renewals := s.renewals[timer := Fired(s.armed[timer].domain)]))
  {
    var s' := s.(armed := s.armed - {timer}, renewals := s.renewals[timer := Fired(s.armed[timer].domain)]);
    hide Covered;
    forall d | d in s'.managed ensures Covered(s', d) {
      FireCovers(s, timer, d);
    }
  }

  lemma IssueSound(s: State, domain: string, settings: string, outcome: Outcome, now: int)
    requires Sound(s)
    ensures Sound(Issue(s, domain, settings, outcome, now))
    ensures Issue(s, domain, settings, outcome, now).renewals == s.renewals
  {
    hide Sound;
    if outcome.Obtained? && outcome.expiry.Some? {
      ManageSound(s, domain, Entry(settings, RenewalTime(outcome.expiry.value, now), false), now);
    }
  }

  lemma EnsureSound(s: State, domain: string, settings: string, existing: Option<int>, outcome: Outcome, now: int,
      later: int)
    requires Sound(s)
    ensures Sound(Ensure(s, domain, settings, existing, outcome, now, later))
  {
    hide Sound, Manage, Issue;
    var entry := Entry(settings, if existing.Some? then RenewalTime(existing.value, now) else ZERO_TIME, false);
    if existing.Some? && entry.nextRenewAt - now > 0 {
      ManageSound(s, domain, entry, now);
    } else {
      IssueSound(s, domain, settings, outcome, later);
      var s' := Issue(s, domain, settings, outcome, later);
      match outcome
      case Failure => ManageSound(s', domain, Entry(settings, later + RETRY_INTERVAL, true), later);
      case Obtained(None) => ManageSound(s', domain, entry, later);
      case Obtained(Some(expiry)) => ManageSound(s', domain, Entry(settings, RenewalTime(expiry, later), false), later);
    }
  }

  lemma RenewsManaged(s: State, timer: nat)
    requires Sound(s) && timer in s.renewals
    ensures s.renewals[timer].domain in s.managed
  {
  }

  lemma FireEventSound(s: State, timer: nat, now: int)
    requires Sound(s)
    ensures Sound(Next(s, Fire(timer, now)))
  {
    hide Sound;
    if timer in s.armed {
      FireSound(s, timer);
    }
  }

  lemma ReadEventSound(s: State, timer: nat)
    requires Sound(s)
    ensures Sound(Next(s, ReadEntry(timer)))
  {
    hide Sound;
    if timer in s.renewals && s.renewals[timer].Fired? {
      RenewsManaged(s, timer);
      RelabelSound(s, timer, Read(s.renewals[timer].domain, s.managed[s.renewals[timer].domain].settings));
    }
  }

  lemma RequestEventSound(s: State, timer: nat, outcome: Outcome, now: int)
    requires Sound(s)
    ensures Sound(Next(s, Request(timer, outcome, now)))
  {
    hide Sound, Issue;
    if timer in s.renewals && s.renewals[timer].Read? {
      var r := s.renewals[timer];
      IssueSound(s, r.domain, r.settings, outcome, now);
      RelabelSound(Issue(s, r.domain, r.settings, outcome, now), timer, Issued(r.domain, outcome));
    }
  }

  lemma FinishEventSound(s: State, timer: nat, now: int)
    requires Sound(s)
    ensures Sound(Next(s, Finish(timer, now)))
  {
    hide Sound, Rearm;
    if timer in s.renewals && s.renewals[timer].Issued? {
      FinishRearms(s, timer, now);
    }
  }

  lemma NextSound(s: State, e: Event)
    requires Sound(s)
    ensures Sound(Next(s, e))
  {
    hide Sound, Issue, Ensure, Rearm;
    match e
    case EnsureCall(domain, settings, existing, outcome, now, later) =>
      EnsureSound(s, domain, settings, existing, outcome, now, later);
    case IssueCall(domain, settings, outcome, now) => IssueSound(s, domain, settings, outcome, now);
    case Fire(timer, now) => FireEventSound(s, timer, now);
    case ReadEntry(timer) => ReadEventSound(s, timer);
    case Request(timer, outcome, now) => RequestEventSound(s, timer, outcome, now);
    case Finish(timer, now) => FinishEventSound(s, timer, now);
  }

  lemma FinishRearms(s: State, timer: nat, now: int)
    requires Sound(s) && timer in s.renewals && s.renewals[timer].Issued?
    ensures Sound(Next(s, Finish(timer, now)))
  {
    hide Sound, Manage;
    RenewsManaged(s, timer);
    var r := s.renewals[timer];
    var current := s.managed[r.domain];
    match r.outcome
    case Failure => FinishSound(s, timer, current.(nextRenewAt := now + RETRY_INTERVAL, failed := true), now);
    case Obtained(None) => FinishSound(s, timer, current.(nextRenewAt := now + RETRY_INTERVAL, failed := true), now);
    case Obtained(Some(expiry)) =>
      FinishSound(s, timer, current.(nextRenewAt := RenewalTime(expiry, now), failed := false), now);
  }

  function Run(s: State, events: seq<Event>): State {
    if events == [] then s else Next(Run(s, events[..|events| - 1]), events[|events| - 1])
  }

  /** Under any interleaving of calls, timers and the sections of running renewals, every managed domain is
      covered, every armed timer is the one on record for its domain, so no domain has two, and it was
      armed with a positive delay. */
  lemma {:induction false} RenewalNeverLost(s: State, events: seq<Event>)
    requires Sound(s)
    ensures Sound(Run(s, events))
    ensures var s' := Run(s, events);
            forall t, u :: t in s'.armed && u in s'.armed && s'.armed[t].domain == s'.armed[u].domain ==> t == u
  {
    if events != [] {
      RenewalNeverLost(s, events[..|events| - 1]);
      NextSound(Run(s, events[..|events| - 1]), events[|events| - 1]);
    }
  }

  lemma NextKeepsManaged(s: State, e: Event)
    ensures s.managed.Keys <= Next(s, e).managed.Keys
  {
    match e
    case EnsureCall(_, _, _, _, _, _) =>
    case IssueCall(_, _, _, _) =>
    case Fire(_, _) =>
    case ReadEntry(_) =>
    case Request(timer, outcome, now) =>
    case Finish(timer, now) =>
  }

  /** A domain once managed stays managed. */
  lemma {:induction false} ManagedForever(s: State, events: seq<Event>)
    ensures s.managed.Keys <= Run(s, events).managed.Keys
  {
    if events != [] {
      ManagedForever(s, events[..|events| - 1]);
      NextKeepsManaged(Run(s, events[..|events| - 1]), events[|events| - 1]);
    }
  }

  // ---------- when ----------

  /** The renewal time is thirty days before expiry exactly if at least thirty days and one minute are left, and
      otherwise in a minute; so it is never after the expiry unless less than a minute is left. */
  lemma RenewalTimeExactly(notAfter: int, now: int)
    ensures RenewalTime(notAfter, now) == if notAfter >= now + 2_592_060 then notAfter - 2_592_000 else now + 60
    ensures RenewalTime(notAfter, now) <= notAfter <==> notAfter >= now + 60
  {
  }

  /** A domain has an entry, and its timer fires at some time. */
  ghost predicate Scheduled(s: State, domain: string, entry: Entry, fireAt: int) {
    && Get(s.managed, domain) == Some(entry)
    && domain in s.timers && s.timers[domain] in s.armed
    && s.armed[s.timers[domain]].domain == domain && s.armed[s.timers[domain]].fireAt == fireAt
  }

  /** Entries and timers of other domains are as before. */
  ghost predicate SameElsewhere(s: State, s': State, domain: string) {
    && (forall d :: d != domain ==> Get(s'.managed, d) == Get(s.managed, d) && Get(s'.timers, d) == Get(s.timers, d))
    && (forall t :: t in s.armed && s.armed[t].domain != domain ==> Get(s'.armed, t) == Some(s.armed[t]))
  }

  lemma ManageSchedules(s: State, domain: string, entry: Entry, now: int)
    requires Sound(s)
    ensures Scheduled(Manage(s, domain, entry, now), domain, entry,
              if entry.nextRenewAt > now then entry.nextRenewAt else now + 60)
    ensures SameElsewhere(s, Manage(s, domain, entry, now), domain)
    ensures Manage(s, domain, entry, now).renewals == s.renewals
  {
  }

  /** A readable certificate on disk is scheduled without a request, at its renewal time, even when it has
      already expired: then one minute ahead. The entry carries the settings of the call and no failure. */
  lemma ReadableCertificateScheduled(s: State, domain: string, settings: string, notAfter: int, outcome: Outcome,
      now: int, later: int)
    requires Sound(s)
    ensures var s' := Ensure(s, domain, settings, Some(notAfter), outcome, now, later);
            var at := if notAfter >= now + 2_592_060 then notAfter - 2_592_000 else now + 60;
            Scheduled(s', domain, Entry(settings, at, false), at) && SameElsewhere(s, s', domain)
  {
    hide Sound, Manage, Scheduled, SameElsewhere;
    RenewalTimeExactly(notAfter, now);
    ManageSchedules(s, domain, Entry(settings, RenewalTime(notAfter, now), false), now);
  }

  /** After a request the timer fires at the renewal time of the new certificate, or an hour later after a
      failure; an unparsable certificate is tried again in a minute by Ensure and in an hour by a renewal. The entry
      carries the settings of the call, and is marked as failed only after a failure. */
  lemma RequestedCertificateScheduled(s: State, domain: string, settings: string, outcome: Outcome, now: int,
      later: int)
    requires Sound(s) && later > 0
    ensures var s' := Ensure(s, domain, settings, None, outcome, now, later);
            SameElsewhere(s, s', domain) &&
            match outcome
            case Failure => Scheduled(s', domain, Entry(settings, later + 3600, true), later + 3600)
            case Obtained(None) => Scheduled(s', domain, Entry(settings, -62_135_596_800, false), later + 60)
            case Obtained(Some(expiry)) =>
              var at := if expiry >= later + 2_592_060 then expiry - 2_592_000 else later + 60;
              Scheduled(s', domain, Entry(settings, at, false), at)
  {
    hide Sound, Manage, Scheduled, SameElsewhere;
    match outcome
    case Failure => ManageSchedules(s, domain, Entry(settings, later + RETRY_INTERVAL, true), later);
    case Obtained(None) => ManageSchedules(s, domain, Entry(settings, ZERO_TIME, false), later);
    case Obtained(Some(expiry)) =>
      var entry := Entry(settings, RenewalTime(expiry, later), false);
      RenewalTimeExactly(expiry, later);
      ManageSchedules(s, domain, entry, later);
      var s1 := Manage(s, domain, entry, later);
      ManageSound(s, domain, entry, later);
      ManageSchedules(s1, domain, entry, later);
      ElsewhereTwice(s, s1, Manage(s1, domain, entry, later), domain);
  }

  lemma ElsewhereTwice(s: State, s1: State, s2: State, domain: string)
    requires SameElsewhere(s, s1, domain) && SameElsewhere(s1, s2, domain)
    ensures SameElsewhere(s, s2, domain)
  {
    forall t | t in s.armed && s.armed[t].domain != domain ensures Get(s2.armed, t) == Some(s.armed[t]) {
      assert Get(s1.armed, t) == Some(s.armed[t]);
    }
  }

  lemma FinishSchedules(s: State, rest: map<nat, Phase>, domain: string, entry: Entry, now: int)
    requires Sound(s)
    ensures Scheduled(Manage(s.(renewals := rest), domain, entry, now), domain, entry,
              if entry.nextRenewAt > now then entry.nextRenewAt else now + 60)
    ensures SameElsewhere(s, Manage(s.(renewals := rest), domain, entry, now), domain)
    ensures Manage(s.(renewals := rest), domain, entry, now).renewals == rest
  {
  }

  /** However other calls interleave, the last section of a fired renewal leaves its domain with an armed
      timer: at the renewal time of the new certificate, or in an hour if there is none or its expiry is unknown. The
      entry keeps its settings, and is marked as failed in those two cases only. */
  lemma FinishArms(s: State, timer: nat, now: int)
    requires Sound(s) && timer in s.renewals && s.renewals[timer].Issued?
    ensures var s', r := Next(s, Finish(timer, now)), s.renewals[timer];
            && timer !in s'.renewals && r.domain in s.managed && SameElsewhere(s, s', r.domain)
            && match r.outcome
               case Obtained(Some(expiry)) =>
                 var at := if expiry >= now + 2_592_060 then expiry - 2_592_000 else now + 60;
                 Scheduled(s', r.domain, Entry(s.managed[r.domain].settings, at, false), at)
               case _ => Scheduled(s', r.domain, Entry(s.managed[r.domain].settings, now + 3600, true), now + 3600)
  {
    hide Sound, Scheduled, SameElsewhere, Schedule;
    var r := s.renewals[timer];
    RenewsManaged(s, timer);
    var current := s.managed[r.domain];
    var known := r.outcome.Obtained? && r.outcome.expiry.Some?;
    var at := if known then RenewalTime(r.outcome.expiry.value, now) else now + RETRY_INTERVAL;
    if known {
      RenewalTimeExactly(r.outcome.expiry.value, now);
    }
    FinishSchedules(s, s.renewals - {timer}, r.domain, Entry(current.settings, at, !known), now);
  }

  /** A certificate obtained outside the schedule is scheduled at its renewal time, with the settings of the request; a
      failure and a certificate of unknown expiry change nothing. */
  lemma IssuedCertificateScheduled(s: State, domain: string, settings: string, outcome: Outcome, now: int)
    requires Sound(s)
    ensures var s' := Next(s, IssueCall(domain, settings, outcome, now));
            match outcome
            case Obtained(Some(expiry)) =>
              var at := if expiry >= now + 2_592_060 then expiry - 2_592_000 else now + 60;
              Scheduled(s', domain, Entry(settings, at, false), at) && SameElsewhere(s, s', domain)
            case _ => s' == s
  {
    hide Sound, Manage, Scheduled, SameElsewhere;
    if outcome.Obtained? && outcome.expiry.Some? {
      RenewalTimeExactly(outcome.expiry.value, now);
      ManageSchedules(s, domain, Entry(settings, RenewalTime(outcome.expiry.value, now), false), now);
    }
  }

  // ---------- the settings of a renewal ----------

  ghost predicate Requests(e: Event, timer: nat) {
    e.Request? && e.timer == timer
  }

  lemma IssueKeepsRenewals(s: State, domain: string, settings: string, outcome: Outcome, now: int)
    ensures Issue(s, domain, settings, outcome, now).renewals == s.renewals
  {
    hide Manage;
    forall entry: Entry ensures Manage(s, domain, entry, now).renewals == s.renewals {
      ManageKeepsRenewals(s, domain, entry, now);
    }
  }

  lemma ManageKeepsRenewals(s: State, domain: string, entry: Entry, now: int)
    ensures Manage(s, domain, entry, now).renewals == s.renewals
  {
  }

  lemma EnsureKeepsRenewals(s: State, domain: string, settings: string, existing: Option<int>, outcome: Outcome,
      now: int, later: int)
    ensures Ensure(s, domain, settings, existing, outcome, now, later).renewals == s.renewals
  {
    hide Manage, Issue;
    IssueKeepsRenewals(s, domain, settings, outcome, later);
    forall t: State, entry: Entry, at: int ensures Manage(t, domain, entry, at).renewals == t.renewals {
      ManageKeepsRenewals(t, domain, entry, at);
    }
  }

  lemma StaysRead(s: State, e: Event, timer: nat)
    requires Sound(s) && timer in s.renewals && s.renewals[timer].Read? && !Requests(e, timer)
    ensures Get(Next(s, e).renewals, timer) == Some(s.renewals[timer])
  {
    hide Ensure, Issue, Manage;
    match e
    case EnsureCall(domain, settings, existing, outcome, now, later) =>
      EnsureKeepsRenewals(s, domain, settings, existing, outcome, now, later);
    case IssueCall(domain, settings, outcome, now) => IssueKeepsRenewals(s, domain, settings, outcome, now);
    case Fire(_, _) =>
    case ReadEntry(_) =>
    case Request(_, _, _) =>
    case Finish(other, now) =>
      forall t: State, domain: string, entry: Entry ensures Manage(t, domain, entry, now).renewals == t.renewals {
        ManageKeepsRenewals(t, domain, entry, now);
      }
  }

  lemma {:induction false} StaysReadLong(s: State, events: seq<Event>, timer: nat)
    requires Sound(s) && timer in s.renewals && s.renewals[timer].Read?
    requires forall e :: e in events ==> !Requests(e, timer)
    ensures Get(Run(s, events).renewals, timer) == Some(s.renewals[timer])
  {
    hide Sound, Next;
    if events != [] {
      var front := events[..|events| - 1];
      StaysReadLong(s, front, timer);
      RenewalNeverLost(s, front);
      StaysRead(Run(s, front), events[|events| - 1], timer);
    }
  }

  /** A renewal requests with the settings its entry had when it began. Whatever happens in between, a new
      certificate puts these settings into the entry: a change made while the renewal was on its way is undone. */
  lemma RenewalUsesSettings(s: State, timer: nat, events: seq<Event>, expiry: int, now: int)
    requires Sound(s) && timer in s.renewals && s.renewals[timer].Fired?
    requires forall e :: e in events ==> !Requests(e, timer)
    ensures var domain := s.renewals[timer].domain;
            var s1 := Run(Next(s, ReadEntry(timer)), events);
            var s2 := Next(s1, Request(timer, Obtained(Some(expiry)), now));
            var at := if expiry >= now + 2_592_060 then expiry - 2_592_000 else now + 60;
            domain in s.managed && Scheduled(s2, domain, Entry(s.managed[domain].settings, at, false), at) &&
            Get(s2.renewals, timer) == Some(Issued(domain, Obtained(Some(expiry))))
  {
    hide Sound, Manage, Scheduled;
    var domain := s.renewals[timer].domain;
    RenewsManaged(s, timer);
    var s0 := Next(s, ReadEntry(timer));
    assert s0.renewals[timer] == Read(domain, s.managed[domain].settings);
    ReadEventSound(s, timer);
    StaysReadLong(s0, events, timer);
    RenewalNeverLost(s0, events);
    IssuedCertificateScheduled(Run(s0, events), domain, s.managed[domain].settings, Obtained(Some(expiry)), now);
    ScheduledRelabelled(Issue(Run(s0, events), domain, s.managed[domain].settings, Obtained(Some(expiry)), now),
                        Run(s0, events).renewals[timer := Issued(domain, Obtained(Some(expiry)))], domain);
  }

  lemma ScheduledRelabelled(s: State, renewals: map<nat, Phase>, domain: string)
    ensures forall entry, at ::
              Scheduled(s, domain, entry, at) ==> Scheduled(s.(renewals := renewals), domain, entry, at)
  {
  }

  // ---------- the operations ----------

  class Manager {
    var managed: map<string, Entry>
    var timers: map<string, nat>
    // The world: timers ever created, those still armed, and the renewals they started.
    var created: nat
    var armed: map<nat, Alarm>
    var renewals: map<nat, Phase>

    ghost function View(): State
      reads this
    {
      State(managed, timers, created, armed, renewals)
    }

    /** NewManager: load the persisted entries and schedule them. */
    constructor (persisted: map<string, Entry>, now: int)
      ensures Sound(View()) && managed == persisted && renewals == map[]
      ensures AllScheduled(View(), now)
    {
      managed, timers, created, armed, renewals := persisted, map[], 0, map[], map[];
      new;
      RestoreSchedules(now);
    }

    /** restoreSchedules, in an arbitrary order of the domains. */
    method RestoreSchedules(now: int)
      requires View() == State(managed, map[], 0, map[], map[])
      modifies this`timers, this`armed, this`created
      ensures Sound(View()) && AllScheduled(View(), now)
    {
      hide Sound, AllScheduled;
      ghost var s := State(map[], map[], 0, map[], map[]);
      NothingManaged(now);
      var rest := managed.Keys;
      while rest != {}
        invariant rest <= managed.Keys && s.managed.Keys == managed.Keys - rest
        invariant forall d :: d in s.managed ==> s.managed[d] == managed[d]
        invariant Sound(s) && AllScheduled(s, now) && View() == s.(managed := managed)
        decreases rest
      {
        var domain := AnyOf(rest);
        rest := rest - {domain};
        ManageSound(s, domain, managed[domain], now);
        ManageSchedulesAll(s, domain, managed[domain], now);
        s := Manage(s, domain, managed[domain], now);
        ScheduleLocked(domain, managed[domain].nextRenewAt, now);
      }
      assert s.managed == managed;
    }

    method ScheduleLocked(domain: string, nextRenewAt: int, now: int)
      modifies this`timers, this`armed, this`created
      ensures View() == Schedule(old(View()), domain, nextRenewAt, now)
    {
      if domain in timers {
        armed := armed - {timers[domain]};
      }
      var delay := nextRenewAt - now;
      if delay <= 0 {
        delay := MIN_DELAY;
      }
      armed := armed[created := Alarm(domain, now, now + delay)];
      timers := timers[domain := created];
      created := created + 1;
    }

    method IssueLocked(domain: string, settings: string, outcome: Outcome, now: int)
      modifies this
      ensures View() == Issue(old(View()), domain, settings, outcome, now)
    {
      if outcome.Obtained? && outcome.expiry.Some? {
        var entry := Entry(settings, RenewalTime(outcome.expiry.value, now), false);
        managed := managed[domain := entry];
        ScheduleLocked(domain, entry.nextRenewAt, now);
      }
    }

    method EnsureManagedCertificate(domain: string, settings: string, existing: Option<int>, outcome: Outcome,
        now: int, later: int)
      modifies this
      ensures View() == Next(old(View()), EnsureCall(domain, settings, existing, outcome, now, later))
      ensures old(Sound(View())) ==> Sound(View())
    {
      ghost var before := View();
      var entry := Entry(settings, ZERO_TIME, false);
      var scheduledAt := now;
      if existing.Some? {
        entry := entry.(nextRenewAt := RenewalTime(existing.value, now));
      }
      if existing == None || entry.nextRenewAt - now <= 0 {
        IssueLocked(domain, settings, outcome, later);
        scheduledAt := later;
        match outcome
        case Failure => entry := entry.(failed := true, nextRenewAt := later + RETRY_INTERVAL);
        case Obtained(None) =>
        case Obtained(Some(expiry)) => entry := entry.(nextRenewAt := RenewalTime(expiry, later), failed := false);
      }
      managed := managed[domain := entry];
      ScheduleLocked(domain, entry.nextRenewAt, scheduledAt);
      if Sound(before) {
        NextSound(before, EnsureCall(domain, settings, existing, outcome, now, later));
      }
    }

    /** IssueWithLogs. */
    method IssueWithLogs(domain: string, settings: string, outcome: Outcome, now: int)
      modifies this
      ensures View() == Next(old(View()), IssueCall(domain, settings, outcome, now))
      ensures old(Sound(View())) ==> Sound(View())
    {
      ghost var before := View();
      IssueLocked(domain, settings, outcome, now);
      if Sound(before) {
        NextSound(before, IssueCall(domain, settings, outcome, now));
      }
    }

    /** The first section of runScheduledRenewal. */
    method BeginRenewal(timer: nat)
      requires timer in renewals && renewals[timer].Fired?
      modifies this`renewals
      ensures View() == Next(old(View()), ReadEntry(timer))
    {
      var domain := renewals[timer].domain;
      if domain !in managed {
        renewals := renewals - {timer};
        return;
      }
      renewals := renewals[timer := Read(domain, managed[domain].settings)];
    }

    /** The second section: IssueWithLogs with the entry that was read. */
    method RequestRenewal(timer: nat, outcome: Outcome, now: int)
      requires timer in renewals && renewals[timer].Read?
      modifies this
      ensures View() == Next(old(View()), Request(timer, outcome, now))
    {
      var r := renewals[timer];
      IssueLocked(r.domain, r.settings, outcome, now);
      renewals := renewals[timer := Issued(r.domain, outcome)];
    }

    /** The third section. */
    method FinishRenewal(timer: nat, now: int)
      requires timer in renewals && renewals[timer].Issued?
      modifies this
      ensures View() == Next(old(View()), Finish(timer, now))
    {
      var r := renewals[timer];
      renewals := renewals - {timer};
      if r.domain !in managed {
        return;
      }
      var current := managed[r.domain];
      match r.outcome {
        case Failure =>
          current := current.(failed := true, nextRenewAt := now + RETRY_INTERVAL);
        case Obtained(Some(expiry)) =>
          current := current.(nextRenewAt := RenewalTime(expiry, now), failed := false);
        case Obtained(None) =>
          current := current.(failed := true, nextRenewAt := now + RETRY_INTERVAL);
      }
      managed := managed[r.domain := current];
      ScheduleLocked(r.domain, current.nextRenewAt, now);
    }
  }
}
