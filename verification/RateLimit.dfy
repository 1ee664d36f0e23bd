/** Cooldown and in-flight limits for requests, and the leases they grant. */
module RateLimit {
  import opened Common
  import opened Conversation

  datatype Settings = Settings(maxGlobal: nat, maxChannel: nat, maxUser: nat, cooldown: real)

  type ChannelKey = (string, string)

  datatype Counters = Counters(
    global: int, channel: map<ChannelKey, int>, user: map<string, int>, availableAt: map<string, real>)

  datatype Refusal = UserCooldown(retryAfter: real) | GlobalConcurrency | ChannelConcurrency | UserConcurrency

  function ChannelOf(key: ConversationKey): ChannelKey { (key.areaId, key.channelId) }

  function CountOf<K>(values: map<K, int>, key: K): int {
    if key in values then values[key] else 0
  }

  function AvailableAt(c: Counters, person: string): real {
    if person in c.availableAt then c.availableAt[person] else 0.0
  }

  /** Why a request is refused, in the order the limits are looked at. */
  function Refused(settings: Settings, c: Counters, key: ConversationKey, now: real): Option<Refusal> {
    if AvailableAt(c, key.personId) > now then Some(UserCooldown(AvailableAt(c, key.personId) - now))
    else if c.global >= settings.maxGlobal then Some(GlobalConcurrency)
    else if CountOf(c.channel, ChannelOf(key)) >= settings.maxChannel then Some(ChannelConcurrency)
    else if CountOf(c.user, key.personId) >= settings.maxUser then Some(UserConcurrency)
    else None
  }

  function Granted(c: Counters, key: ConversationKey): Counters {
    c.(global := c.global + 1,
       channel := c.channel[ChannelOf(key) := CountOf(c.channel, ChannelOf(key)) + 1],
       user := c.user[key.personId := CountOf(c.user, key.personId) + 1])
  }

  /** Count one less and forget the key at zero; None when the key is missing. */
  function Decrement<K(==)>(values: map<K, int>, key: K): Option<map<K, int>> {
    if key !in values then None
    else if values[key] - 1 <= 0 then Some(values - {key})
    else Some(values[key := values[key] - 1])
  }

  /** Give a slot back and begin the cooldown; None when a count is missing. */
  function Released(settings: Settings, c: Counters, key: ConversationKey, now: real): Option<Counters> {
    var channel, user := Decrement(c.channel, ChannelOf(key)), Decrement(c.user, key.personId);
    if channel.None? || user.None? then None
    else Some(Counters(c.global - 1, channel.value, user.value, c.availableAt[key.personId := now + settings.cooldown]))
  }

  // ---- the service and its leases, changed in place ----

  class RateLimitService {
    const settings: Settings
    var global: int
    var channel: map<ChannelKey, int>
    var user: map<string, int>
    var availableAt: map<string, real>

    ghost function Value(): Counters
      reads this
    {
      Counters(global, channel, user, availableAt)
    }

    constructor (settings: Settings)
      ensures Value() == Counters(0, map[], map[], map[]) && this.settings == settings
    {
      this.settings := settings;
      global, channel, user, availableAt := 0, map[], map[], map[];
    }

    method Acquire(key: ConversationKey, now: real) returns (result: Result<RateLimitLease, Refusal>)
      modifies this
      ensures result.Err? <==> Refused(settings, old(Value()), key, now).Some?
      ensures result.Err? ==> result.error == Refused(settings, old(Value()), key, now).value && Value() == old(Value())
      ensures result.Ok? ==>
        && Value() == Granted(old(Value()), key)
        && fresh(result.value) && result.value.service == this && result.value.key == key && !result.value.released
    {
      var at := if key.personId in availableAt then availableAt[key.personId] else 0.0;
      if at - now > 0.0 {
        return Err(UserCooldown(at - now));
      }
      if global >= settings.maxGlobal {
        return Err(GlobalConcurrency);
      }
      if CountOf(channel, ChannelOf(key)) >= settings.maxChannel {
        return Err(ChannelConcurrency);
      }
      if CountOf(user, key.personId) >= settings.maxUser {
        return Err(UserConcurrency);
      }
      global := global + 1;
      channel := channel[ChannelOf(key) := CountOf(channel, ChannelOf(key)) + 1];
      user := user[key.personId := CountOf(user, key.personId) + 1];
      var lease := new RateLimitLease(this, key);
      result := Ok(lease);
    }

    /** Not ok stands for the lookup error of a missing count. */
    method Release(key: ConversationKey, now: real) returns (ok: bool)
      modifies this
      ensures ok <==> Released(settings, old(Value()), key, now).Some?
      ensures ok ==> Some(Value()) == Released(settings, old(Value()), key, now)
    {
      global := global - 1;
      var channels := Without(channel, ChannelOf(key));
      if channels.None? {
        return false;
      }
      channel := channels.value;
      var users := Without(user, key.personId);
      if users.None? {
        return false;
      }
      user := users.value;
      availableAt := availableAt[key.personId := now + settings.cooldown];
      ok := true;
    }

    static method Without<K(==)>(values: map<K, int>, key: K) returns (left: Option<map<K, int>>)
      ensures left == Decrement(values, key)
    {
      if key !in values {
        return None;
      }
      var remaining := values[key] - 1;
      if remaining <= 0 {
        left := Some(values - {key});
      } else {
        left := Some(values[key := remaining]);
      }
    }
  }

  class RateLimitLease {
    const service: RateLimitService
    const key: ConversationKey
    var released: bool

    constructor (service: RateLimitService, key: ConversationKey)
      ensures this.service == service && this.key == key && !released
    {
      this.service, this.key, released := service, key, false;
    }

    /** Release the slot exactly once. */
    method Release(now: real) returns (ok: bool)
      modifies this, service
      ensures released
      ensures old(released) ==> ok && service.Value() == old(service.Value())
      ensures !old(released) ==> (ok <==> Released(service.settings, old(service.Value()), key, now).Some?)
      ensures !old(released) && ok ==>
              Some(service.Value()) == Released(service.settings, old(service.Value()), key, now)
    {
      ok := true;
      if !released {
        released := true;
        ok := service.Release(key, now);
      }
    }
  }

  // ---- every run of acquires and releases ----

  datatype Lease = Lease(key: ConversationKey, released: bool)

  /** past lists every release so far: whose, and when. */
  datatype State = State(settings: Settings, counters: Counters, leases: seq<Lease>, past: seq<(string, real)>)

  datatype Step = Acquire(key: ConversationKey, now: real) | Release(lease: nat, now: real)

  /** The release clock never runs backwards. */
  ghost predicate Enabled(s: State, step: Step) {
    match step
    case Acquire(key, now) => true
    case Release(i, now) => i < |s.leases| && (s.past != [] ==> s.past[|s.past| - 1].1 <= now)
  }

  /** A release whose counts are missing would raise; it changes the flag only. */
  ghost function After(s: State, step: Step): State
    requires Enabled(s, step)
  {
    match step
    case Acquire(key, now) =>
      if Refused(s.settings, s.counters, key, now).Some? then s
      else s.(counters := Granted(s.counters, key), leases := s.leases + [Lease(key, false)])
    case Release(i, now) =>
      if s.leases[i].released then s
      else
        var key := s.leases[i].key;
        var marked := s.(leases := s.leases[i := Lease(key, true)]);
        var counters := Released(s.settings, s.counters, key, now);
        if counters.None? then marked else marked.(counters := counters.value, past := s.past + [(key.personId, now)])
  }

  function Start(settings: Settings): State {
    State(settings, Counters(0, map[], map[], map[]), [], [])
  }

  /** What one limit counts: every request, one channel, or one person. */
  datatype Scope = Everyone | InChannel(channel: ChannelKey) | OfUser(person: string) {
    predicate Has(key: ConversationKey) {
      match this
      case Everyone => true
      case InChannel(channel) => ChannelOf(key) == channel
      case OfUser(person) => key.personId == person
    }
  }

  /** The open leases a limit counts. */
  function Open(leases: seq<Lease>, scope: Scope): set<nat> {
    set i | 0 <= i < |leases| && !leases[i].released && scope.Has(leases[i].key)
  }

  /** A counter map has a key exactly when its count is positive. */
  ghost predicate Counts<K>(values: map<K, int>, key: K, count: nat) {
    && (key in values <==> count > 0)
    && CountOf(values, key) == count
  }

  ghost predicate CountersAgree(c: Counters, leases: seq<Lease>) {
    && c.global == |Open(leases, Everyone)|
    && (forall channel :: Counts(c.channel, channel, |Open(leases, InChannel(channel))|))
    && (forall person :: Counts(c.user, person, |Open(leases, OfUser(person))|))
  }

  ghost predicate WithinLimits(s: State) {
    && s.counters.global <= s.settings.maxGlobal
    && (forall channel :: CountOf(s.counters.channel, channel) <= s.settings.maxChannel)
    && (forall person :: CountOf(s.counters.user, person) <= s.settings.maxUser)
  }

  /** When the latest release of a person was; None when there was none. */
  function LatestRelease(past: seq<(string, real)>, person: string): Option<real> {
    if past == [] then None
    else if past[|past| - 1].0 == person then Some(past[|past| - 1].1)
    else LatestRelease(past[..|past| - 1], person)
  }

  /** Until when a person has to wait. */
  function WaitsUntil(s: State, person: string): real {
    match LatestRelease(s.past, person)
    case None => 0.0
    case Some(at) => at + s.settings.cooldown
  }

  ghost predicate CooldownsKept(s: State) {
    && (forall i, j | 0 <= i < j < |s.past| :: s.past[i].1 <= s.past[j].1)
    && (forall i | 0 <= i < |s.past| :: AvailableAt(s.counters, s.past[i].0) >= s.past[i].1 + s.settings.cooldown)
    && (forall person :: AvailableAt(s.counters, person) == WaitsUntil(s, person))
  }

  ghost predicate Inv(s: State) {
    CountersAgree(s.counters, s.leases) && WithinLimits(s) && CooldownsKept(s)
  }

  lemma GrantOpens(leases: seq<Lease>, key: ConversationKey, scope: Scope)
    ensures |Open(leases + [Lease(key, false)], scope)| == |Open(leases, scope)| + (if scope.Has(key) then 1 else 0)
  {
    var more, n := leases + [Lease(key, false)], |leases|;
    assert Open(more, scope) == Open(leases, scope) + (if scope.Has(key) then {n} else {});
  }

  lemma ReleaseCloses(leases: seq<Lease>, i: nat, scope: Scope)
    requires i < |leases| && !leases[i].released
    ensures |Open(leases[i := Lease(leases[i].key, true)], scope)|
         == |Open(leases, scope)| - (if scope.Has(leases[i].key) then 1 else 0)
  {
    var less := leases[i := Lease(leases[i].key, true)];
    assert Open(less, scope) == Open(leases, scope) - (if scope.Has(leases[i].key) then {i} else {});
  }

  lemma GrantAgrees(s: State, key: ConversationKey)
    requires CountersAgree(s.counters, s.leases)
    ensures CountersAgree(Granted(s.counters, key), s.leases + [Lease(key, false)])
  {
    var counters, leases := Granted(s.counters, key), s.leases + [Lease(key, false)];
    GrantOpens(s.leases, key, Everyone);
    forall channel ensures Counts(counters.channel, channel, |Open(leases, InChannel(channel))|) {
      GrantOpens(s.leases, key, InChannel(channel));
      assert Counts(s.counters.channel, channel, |Open(s.leases, InChannel(channel))|);
    }
    forall person ensures Counts(counters.user, person, |Open(leases, OfUser(person))|) {
      GrantOpens(s.leases, key, OfUser(person));
      assert Counts(s.counters.user, person, |Open(s.leases, OfUser(person))|);
    }
  }

  /** An open lease is counted, so giving it back finds its counts. */
  lemma OpenLeaseCounted(s: State, i: nat, now: real)
    requires CountersAgree(s.counters, s.leases) && i < |s.leases| && !s.leases[i].released
    ensures var key := s.leases[i].key;
      && Released(s.settings, s.counters, key, now).Some?
      && CountOf(s.counters.channel, ChannelOf(key)) > 0 && CountOf(s.counters.user, key.personId) > 0
  {
    var key := s.leases[i].key;
    assert i in Open(s.leases, InChannel(ChannelOf(key))) && i in Open(s.leases, OfUser(key.personId));
    assert Counts(s.counters.channel, ChannelOf(key), |Open(s.leases, InChannel(ChannelOf(key)))|);
    assert Counts(s.counters.user, key.personId, |Open(s.leases, OfUser(key.personId))|);
  }

  lemma ReleaseAgrees(s: State, i: nat, now: real)
    requires CountersAgree(s.counters, s.leases) && i < |s.leases| && !s.leases[i].released
    requires Released(s.settings, s.counters, s.leases[i].key, now).Some?
    ensures var key := s.leases[i].key;
      CountersAgree(Released(s.settings, s.counters, key, now).value, s.leases[i := Lease(key, true)])
  {
    var key := s.leases[i].key;
    var counters, leases := Released(s.settings, s.counters, key, now).value, s.leases[i := Lease(key, true)];
    OpenLeaseCounted(s, i, now);
    ReleaseCloses(s.leases, i, Everyone);
    forall channel ensures Counts(counters.channel, channel, |Open(leases, InChannel(channel))|) {
      ReleaseCloses(s.leases, i, InChannel(channel));
    }
    forall person ensures Counts(counters.user, person, |Open(leases, OfUser(person))|) {
      ReleaseCloses(s.leases, i, OfUser(person));
    }
  }

  lemma ReleaseCools(s: State, i: nat, now: real)
    requires Inv(s) && Enabled(s, Release(i, now)) && !s.leases[i].released
    ensures CooldownsKept(After(s, Release(i, now))) && WithinLimits(After(s, Release(i, now)))
  {
    OpenLeaseCounted(s, i, now);
    hide CountersAgree;
    var s', person := After(s, Release(i, now)), s.leases[i].key.personId;
    assert s'.past == s.past + [(person, now)];
    forall j | 0 <= j < |s'.past|
      ensures AvailableAt(s'.counters, s'.past[j].0) >= s'.past[j].1 + s'.settings.cooldown {
      if j < |s.past| {
        assert s.past[j].1 <= s.past[|s.past| - 1].1;
      }
    }
    assert s'.past[..|s.past|] == s.past;
    forall other ensures AvailableAt(s'.counters, other) == WaitsUntil(s', other) {
      assert AvailableAt(s.counters, other) == WaitsUntil(s, other);
    }
    LimitsStay(s, s'.counters);
  }

  lemma GrantCools(s: State, key: ConversationKey)
    requires CooldownsKept(s)
    ensures CooldownsKept(s.(counters := Granted(s.counters, key), leases := s.leases + [Lease(key, false)]))
  {
    forall person ensures AvailableAt(Granted(s.counters, key), person) == WaitsUntil(s, person) {
    }
  }

  /** Limits hold after a step that raises only counts below their limit. */
  lemma LimitsStay(s: State, c: Counters)
    requires WithinLimits(s) && c.global <= s.settings.maxGlobal
    requires forall channel ::
             CountOf(c.channel, channel) <= Max(CountOf(s.counters.channel, channel), s.settings.maxChannel)
    requires forall person :: CountOf(c.user, person) <= Max(CountOf(s.counters.user, person), s.settings.maxUser)
    ensures WithinLimits(s.(counters := c))
  {
  }

  lemma ReleaseKeeps(s: State, i: nat, now: real)
    requires Inv(s) && Enabled(s, Release(i, now)) && !s.leases[i].released
    ensures Inv(After(s, Release(i, now)))
  {
    OpenLeaseCounted(s, i, now);
    ReleaseAgrees(s, i, now);
    ReleaseCools(s, i, now);
    hide CountersAgree, CooldownsKept, WithinLimits;
  }

  lemma StepKeepsInv(s: State, step: Step)
    requires Inv(s) && Enabled(s, step)
    ensures Inv(After(s, step))
  {
    match step
    case Acquire(key, now) =>
      GrantAgrees(s, key);
      hide CountersAgree;
      if Refused(s.settings, s.counters, key, now).None? {
        LimitsStay(s, Granted(s.counters, key));
        GrantCools(s, key);
      }
    case Release(i, now) =>
      if !s.leases[i].released {
        ReleaseKeeps(s, i, now);
      }
  }

  ghost predicate IsRun(settings: Settings, states: seq<State>, steps: seq<Step>) {
    && |states| == |steps| + 1 && states[0] == Start(settings)
    && forall i {:trigger steps[i]} | 0 <= i < |steps| ::
         Enabled(states[i], steps[i]) && states[i + 1] == After(states[i], steps[i])
  }

  /** In every reachable state the counters are the counts over the open leases,
      no limit is exceeded, and every cooldown begun is still kept. */
  lemma {:induction false} EveryRunAgrees(settings: Settings, states: seq<State>, steps: seq<Step>)
    requires IsRun(settings, states, steps)
    ensures Inv(states[|steps|])
    decreases |steps|
  {
    if steps != [] {
      EveryRunAgrees(settings, states[..|steps|], steps[..|steps| - 1]);
      StepKeepsInv(states[|steps| - 1], steps[|steps| - 1]);
    } else {
      assert forall scope :: Open([], scope) == {};
    }
  }

  /** An acquire that succeeds comes no earlier than every past release of the
      same user plus the cooldown. */
  lemma CooldownRespected(s: State, key: ConversationKey, now: real, i: nat)
    requires Inv(s) && Refused(s.settings, s.counters, key, now).None?
    requires i < |s.past| && s.past[i].0 == key.personId
    ensures now >= s.past[i].1 + s.settings.cooldown
  {
  }

  /** A request is refused for a limit only when that many leases are open, so
      a refusal is never stale. */
  lemma RefusedOnlyWhenFull(s: State, key: ConversationKey, now: real)
    requires Inv(s)
    ensures
      var refusal := Refused(s.settings, s.counters, key, now);
      && (refusal == Some(GlobalConcurrency) ==> |Open(s.leases, Everyone)| == s.settings.maxGlobal)
      && (refusal == Some(ChannelConcurrency) ==> |Open(s.leases, InChannel(ChannelOf(key)))| == s.settings.maxChannel)
      && (refusal == Some(UserConcurrency) ==> |Open(s.leases, OfUser(key.personId))| == s.settings.maxUser)
  {
    assert Counts(s.counters.channel, ChannelOf(key), |Open(s.leases, InChannel(ChannelOf(key)))|);
    assert Counts(s.counters.user, key.personId, |Open(s.leases, OfUser(key.personId))|);
  }

  /** What an acquire answers, from the leases and releases alone: a cooldown
      until the latest release of the person plus the cooldown, and then the
      first of the three limits that is full. */
  lemma RefusalExact(s: State, key: ConversationKey, now: real)
    requires Inv(s)
    ensures
      var until := WaitsUntil(s, key.personId);
      Refused(s.settings, s.counters, key, now) ==
        if now < until then Some(UserCooldown(until - now))
        else if |Open(s.leases, Everyone)| >= s.settings.maxGlobal then Some(GlobalConcurrency)
        else if |Open(s.leases, InChannel(ChannelOf(key)))| >= s.settings.maxChannel then Some(ChannelConcurrency)
        else if |Open(s.leases, OfUser(key.personId))| >= s.settings.maxUser then Some(UserConcurrency)
        else None
  {
    assert Counts(s.counters.channel, ChannelOf(key), |Open(s.leases, InChannel(ChannelOf(key)))|);
    assert Counts(s.counters.user, key.personId, |Open(s.leases, OfUser(key.personId))|);
  }

  /** Releasing twice is releasing once. */
  lemma SecondReleaseChangesNothing(s: State, i: nat, first: real, second: real)
    requires Enabled(s, Release(i, first)) && first <= second && Inv(s)
    ensures Enabled(After(s, Release(i, first)), Release(i, second))
    ensures After(After(s, Release(i, first)), Release(i, second)) == After(s, Release(i, first))
  {
    if !s.leases[i].released {
      OpenLeaseCounted(s, i, first);
    }
  }
}
