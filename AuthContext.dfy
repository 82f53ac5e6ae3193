/** The session: the signed-in user (mirrored under `mockUser` in storage)
    and the inactivity timer that signs the user out after 30 minutes without
    activity. The timer is one optional deadline on an explicit millisecond
    clock: `setTimeout` becomes "set the deadline", `clearTimeout` becomes
    "clear it", and the browser firing the callback becomes time passing the
    deadline. */
module AuthContext {
  import opened Common
  import opened Entities
  import opened Storage

  /** `INACTIVITY_TIMEOUT = 30 * 60 * 1000` milliseconds. */
  const InactivityTimeout: nat := 30 * 60 * 1000

  /** Window events; mousedown, keydown, touchstart and mousemove count as
      activity. */
  datatype DomEvent = MouseDown | KeyDown | TouchStart | MouseMove | OtherEvent(name: string)

  predicate IsActivity(e: DomEvent) {
    !e.OtherEvent?
  }

  /** The user `signUp` creates: a fresh id and exactly the email and full
      name it was given, with no other profile field. */
  function SignUpUser(email: string, fullName: string, id: string): (u: User)
    ensures u.id == id && u.email == email && u.fullName == fullName
    ensures u.avatar.None? && u.bio.None? && u.location.None? && u.role.None?
    ensures u.phone.None? && u.timezone.None? && u.department.None? && u.joinDate.None?
    ensures u.title.None? && u.company.None? && u.website.None?
  {
    User(id, email, fullName, None, None, None, None, None, None, None, None, None, None, None)
  }

  /** The user `signIn` creates: the full name is the part of the email
      before its first `@` (all of it when there is none), with role
      `Member`, time zone `UTC` and the sign-in time as join date. */
  function SignInUser(email: string, id: string, joinDate: string): (u: User)
    ensures u.id == id && u.email == email
    ensures |u.fullName| <= |email| && email[..|u.fullName|] == u.fullName && '@' !in u.fullName
    ensures |u.fullName| < |email| ==> email[|u.fullName|] == '@'
    ensures '@' !in email ==> u.fullName == email
    ensures u.role == Some("Member") && u.timezone == Some("UTC") && u.joinDate == Some(joinDate)
    ensures u.avatar.None? && u.bio.None? && u.location.None? && u.phone.None?
    ensures u.department.None? && u.title.None? && u.company.None? && u.website.None?
  {
    BeforeFirstWhole(email, '@');
    User(id, email, BeforeFirst(email, '@'), None, None, None, Some("Member"), None,
         Some("UTC"), None, Some(joinDate), None, None, None)
  }

  // ---------------------------------------------------------------------
  // The session as a state machine

  /** `user` is the in-memory user, `saved` the `mockUser` storage entry,
      `deadline` the one pending inactivity alarm, `clock` the current time. */
  datatype SessionState = SessionState(user: Option<User>, deadline: Option<nat>, clock: nat, saved: Option<User>)

  datatype Event =
    | SignUpEvent(email: string, fullName: string, id: string)
    | SignInEvent(email: string, id: string, joinDate: string)
    | SignOutEvent
    | RecordActivityEvent
    | WindowEvent(e: DomEvent)
    | Elapse(ms: nat)

  /** `resetInactivityTimer`: the pending alarm, if any, is cancelled and
      replaced by one a full timeout from now. */
  function Rearmed(s: SessionState): (r: SessionState)
    ensures r.deadline == Some(s.clock + InactivityTimeout)
    ensures r.(deadline := s.deadline) == s
  {
    s.(deadline := Some(s.clock + InactivityTimeout))
  }

  /** `signOut`: no user in memory or in storage, and no pending alarm. */
  function SignedOut(s: SessionState): (r: SessionState)
    ensures r.user.None? && r.saved.None? && r.deadline.None? && r.clock == s.clock
  {
    s.(user := None, saved := None, deadline := None)
  }

  /** An event that puts a user into the session. */
  predicate SignsIn(e: Event) {
    e.SignUpEvent? || e.SignInEvent?
  }

  /** One event: only time passing moves the clock; only signing up or in
      brings a user in; signing out leaves no user, stored user or alarm;
      and an alarm that changes is set a full timeout from the new time
      or cancelled. */
  function Step(s: SessionState, e: Event): (r: SessionState)
    ensures r.clock == s.clock + (if e.Elapse? then e.ms else 0)
    ensures r.user.Some? && r.user != s.user ==> SignsIn(e)
    ensures r.saved.Some? && r.saved != s.saved ==> SignsIn(e)
    ensures SignsIn(e) ==> r.user.Some? && r.saved == r.user
    ensures e.SignOutEvent? ==> r.user.None? && r.saved.None? && r.deadline.None?
    ensures r.deadline != s.deadline ==> r.deadline.None? || r.deadline == Some(r.clock + InactivityTimeout)
  {
    match e
    case SignUpEvent(email, fullName, id) =>
      var u := SignUpUser(email, fullName, id);
      Rearmed(s.(user := Some(u), saved := Some(u)))
    case SignInEvent(email, id, joinDate) =>
      var u := SignInUser(email, id, joinDate);
      Rearmed(s.(user := Some(u), saved := Some(u)))
    case SignOutEvent =>
      SignedOut(s)
    case RecordActivityEvent =>
      Rearmed(s)
    case WindowEvent(k) =>
      // the listeners are attached only while a user is signed in
      if s.user.Some? && IsActivity(k) then Rearmed(s) else s
    case Elapse(ms) =>
      var later := s.(clock := s.clock + ms);
      if s.deadline.Some? && s.deadline.value <= later.clock then SignedOut(later) else later
  }

  /** A trace of events, in order: the clock never goes back, and a user
      the session did not start with comes only from a sign-up or sign-in
      in the trace. */
  function Run(s: SessionState, events: seq<Event>): (r: SessionState)
    ensures r.clock >= s.clock
    ensures r.user.Some? && r.user != s.user ==> exists e :: e in events && SignsIn(e)
    decreases |events|
  {
    if events == [] then s else Run(Step(s, events[0]), events[1..])
  }

  /** Application start: the user saved in storage, if any, becomes the
      session user, and because `user` becomes non-null the timer effect
      arms the alarm. */
  function Restored(saved: Option<User>, now: nat): (s: SessionState)
    ensures s.user == saved && s.saved == saved && s.clock == now
    ensures s.deadline == if saved.Some? then Some(now + InactivityTimeout) else None
  {
    SessionState(saved, if saved.Some? then Some(now + InactivityTimeout) else None, now, saved)
  }

  /** What the session keeps true between events: a signed-in user always
      has an alarm pending, the alarm lies in the future but no more than
      one timeout ahead, and a user is in storage only while signed in. */
  ghost predicate Inv(s: SessionState) {
    && (s.user.Some? ==> s.deadline.Some?)
    && (s.deadline.Some? ==> s.clock < s.deadline.value <= s.clock + InactivityTimeout)
    && (s.saved.Some? ==> s.user.Some?)
  }

  lemma RestoredInv(saved: Option<User>, now: nat)
    ensures Inv(Restored(saved, now))
  {
  }

  lemma StepInv(s: SessionState, e: Event)
    requires Inv(s)
    ensures Inv(Step(s, e))
  {
  }

  lemma {:induction false} RunInv(s: SessionState, events: seq<Event>)
    requires Inv(s)
    ensures Inv(Run(s, events))
    decreases |events|
  {
    if events != [] {
      StepInv(s, events[0]);
      RunInv(Step(s, events[0]), events[1..]);
    }
  }

  /** Signing out twice is signing out once. */
  lemma SignOutIdempotent(s: SessionState)
    ensures Step(Step(s, SignOutEvent), SignOutEvent) == Step(s, SignOutEvent)
  {
  }

  // ---------------------------------------------------------------------
  // Quiet periods: traces in which only time passes

  predicate OnlyTime(events: seq<Event>) {
    forall i :: 0 <= i < |events| ==> events[i].Elapse?
  }

  function Elapsed(events: seq<Event>): nat
    requires OnlyTime(events)
  {
    if events == [] then 0 else events[0].ms + Elapsed(events[1..])
  }

  /** Before the deadline, time passing changes nothing but the clock. */
  lemma {:induction false} QuietBeforeDeadline(s: SessionState, events: seq<Event>)
    requires OnlyTime(events) && s.deadline.Some?
    requires s.clock + Elapsed(events) < s.deadline.value
    ensures Run(s, events) == s.(clock := s.clock + Elapsed(events))
    decreases |events|
  {
    if events != [] {
      QuietBeforeDeadline(Step(s, events[0]), events[1..]);
    }
  }

  /** Once time reaches the deadline the alarm has fired: the user is signed
      out and removed from storage, and nothing is pending. */
  lemma {:induction false} QuietPastDeadline(s: SessionState, events: seq<Event>)
    requires OnlyTime(events) && s.deadline.Some? && s.clock < s.deadline.value
    requires s.deadline.value <= s.clock + Elapsed(events)
    ensures Run(s, events) == SignedOut(s).(clock := s.clock + Elapsed(events))
    decreases |events|
  {
    var e := events[0];
    var next := Step(s, e);
    if s.deadline.value <= s.clock + e.ms {
      SignedOutStaysQuiet(next, events[1..]);
    } else {
      QuietPastDeadline(next, events[1..]);
    }
  }

  /** With no user and nothing pending, time passing changes nothing but the
      clock: after sign-out no alarm is left to fire. */
  lemma {:induction false} SignedOutStaysQuiet(s: SessionState, events: seq<Event>)
    requires OnlyTime(events)
    requires s.user.None? && s.saved.None? && s.deadline.None?
    ensures Run(s, events) == s.(clock := s.clock + Elapsed(events))
    decreases |events|
  {
    if events != [] {
      SignedOutStaysQuiet(Step(s, events[0]), events[1..]);
    }
  }

  /** A signed-in session left alone for the whole timeout is signed out. */
  lemma InactivityForcesSignOut(s: SessionState, events: seq<Event>)
    requires Inv(s) && s.user.Some?
    requires OnlyTime(events) && Elapsed(events) >= InactivityTimeout
    ensures Run(s, events).user.None? && Run(s, events).saved.None? && Run(s, events).deadline.None?
  {
    QuietPastDeadline(s, events);
  }

  /** Activity restarts the countdown: for a full timeout after it, time
      passing leaves the user signed in. */
  lemma ActivityDefersSignOut(s: SessionState, events: seq<Event>)
    requires OnlyTime(events) && Elapsed(events) < InactivityTimeout
    ensures var a := Step(s, RecordActivityEvent);
            Run(a, events) == a.(clock := s.clock + Elapsed(events))
    ensures Run(Step(s, RecordActivityEvent), events).user == s.user
  {
    QuietBeforeDeadline(Step(s, RecordActivityEvent), events);
  }

  /** A session restored from storage at start-up is under the same timeout
      as one signed in interactively. */
  lemma RestoredSessionExpires(u: User, now: nat, events: seq<Event>)
    requires OnlyTime(events) && Elapsed(events) >= InactivityTimeout
    ensures Run(Restored(Some(u), now), events).user.None?
  {
    InactivityForcesSignOut(Restored(Some(u), now), events);
  }

  /** `recordActivity` does not look at the user, so an alarm may be pending
      while signed out; but time alone never brings a user back, and the
      alarm, when it fires, only signs out again. */
  lemma {:induction false} StrayAlarmHarmless(s: SessionState, events: seq<Event>)
    requires OnlyTime(events)
    requires s.user.None? && s.saved.None?
    ensures Run(s, events).user.None? && Run(s, events).saved.None?
    ensures Run(s, events).clock == s.clock + Elapsed(events)
    ensures Run(s, events).deadline == s.deadline || Run(s, events).deadline.None?
    decreases |events|
  {
    if events != [] {
      StrayAlarmHarmless(Step(s, events[0]), events[1..]);
    }
  }

  // ---------------------------------------------------------------------
  // The provider component

  class Session {
    const store: LocalStore
    var user: Option<User>
    var deadline: Option<nat>
    var clock: nat
    var loading: bool

    function View(): SessionState
      reads this, store
    {
      SessionState(user, deadline, clock, SavedUser(store.entries))
    }

    ghost predicate Valid()
      reads this, store
    {
      Inv(View())
    }

    /** Mounting the provider at time `now`: restore the saved user, let the
        user-driven effect arm the timer, and finish loading. */
    constructor (store: LocalStore, now: nat)
      ensures this.store == store
      ensures View() == Restored(SavedUser(store.entries), now)
      ensures !loading && Valid()
    {
      this.store := store;
      var saved := SavedUser(store.entries);
      user := saved;
      clock := now;
      deadline := if saved.Some? then Some(now + InactivityTimeout) else None;
      loading := false;
      RestoredInv(saved, now);
    }

    /** `resetInactivityTimer` */
    method ResetInactivityTimer()
      modifies this`deadline
      ensures deadline == Some(clock + InactivityTimeout)
    {
      deadline := Some(clock + InactivityTimeout);
    }

    /** `signOut` */
    method SignOut()
      requires Valid()
      modifies this`user, this`deadline, store
      ensures Valid()
      ensures View() == Step(old(View()), SignOutEvent)
      ensures store.entries == old(store.entries) - {MockUserKey}
    {
      user := None;
      store.RemoveItem(MockUserKey);
      deadline := None;
    }

    /** `signUp`: the password is not used and nothing can fail, so the
        returned error is always null. */
    method SignUp(email: string, password: string, fullName: string, id: string) returns (error: Option<string>)
      requires Valid()
      modifies this`user, this`deadline, store
      ensures Valid() && error.None?
      ensures View() == Step(old(View()), SignUpEvent(email, fullName, id))
      ensures store.entries == old(store.entries)[MockUserKey := UserEntry(SignUpUser(email, fullName, id))]
    {
      var u := SignUpUser(email, fullName, id);
      user := Some(u);
      store.SetItem(MockUserKey, UserEntry(u));
      ResetInactivityTimer();
      error := None;
    }

    /** `signIn`: the password is not used and nothing can fail, so the
        returned error is always null. */
    method SignIn(email: string, password: string, id: string, joinDate: string) returns (error: Option<string>)
      requires Valid()
      modifies this`user, this`deadline, store
      ensures Valid() && error.None?
      ensures View() == Step(old(View()), SignInEvent(email, id, joinDate))
      ensures store.entries == old(store.entries)[MockUserKey := UserEntry(SignInUser(email, id, joinDate))]
    {
      var u := SignInUser(email, id, joinDate);
      user := Some(u);
      store.SetItem(MockUserKey, UserEntry(u));
      ResetInactivityTimer();
      error := None;
    }

    /** `recordActivity`: re-arms the timer whether or not a user is signed in. */
    method RecordActivity()
      requires Valid()
      modifies this`deadline
      ensures Valid()
      ensures View() == Step(old(View()), RecordActivityEvent)
    {
      ResetInactivityTimer();
    }

    /** The window listeners, present only while a user is signed in. */
    method HandleWindowEvent(e: DomEvent)
      requires Valid()
      modifies this`deadline
      ensures Valid()
      ensures View() == Step(old(View()), WindowEvent(e))
    {
      if user.Some? && IsActivity(e) {
        ResetInactivityTimer();
      }
    }

    /** The clock moves to `now`; if the alarm's time has come it fires and
        signs the user out. */
    method Tick(now: nat)
      requires Valid() && clock <= now
      modifies this`user, this`deadline, this`clock, store
      ensures Valid()
      ensures View() == Step(old(View()), Elapse(now - old(clock)))
      ensures store.entries == if old(deadline).Some? && old(deadline).value <= now
                               then old(store.entries) - {MockUserKey}
                               else old(store.entries)
    {
      var fires := deadline.Some? && deadline.value <= now;
      clock := now;
      if fires {
        user := None;
        store.RemoveItem(MockUserKey);
        deadline := None;
      }
    }
  }
}
