/** The state of the visitor page: the selected platform, the username input,
    the per-type `missions` record with its task buttons, the follow
    confirmation, and the handlers that change them. The claim cache is the
    `Cache` object of module ClaimCache. */
module MissionPage {
  import opened Wrappers
  import opened Text
  import opened ClaimKeys
  import opened ClaimCache

  /** One entry of the `missions` record. */
  datatype Mission = Mission(selected: bool, count: nat, completed: nat)

  /** `{ selected: false, count: 0, completed: 0 }`. */
  const Unselected: Mission := Mission(false, 0, 0)

  /** One value per mission type, as the `missions` record holds them. */
  datatype PerType<T> = PerType(followers: T, likes: T, comments: T) {

    /** `missions[type]`. */
    function Get(t: MissionType): T {
      match t
      case Followers => followers
      case Likes => likes
      case Comments => comments
    }

    /** The record with `missions[type]` replaced. */
    function Set(t: MissionType, v: T): (r: PerType<T>)
      ensures r.Get(t) == v
      ensures forall u :: u != t ==> r.Get(u) == Get(u)
    {
      match t
      case Followers => this.(followers := v)
      case Likes => this.(likes := v)
      case Comments => this.(comments := v)
    }
  }

  /** The record `selectPlatform` installs. */
  const NoMissions: PerType<Mission> := PerType(Unselected, Unselected, Unselected)

  /** No task buttons for any type. */
  const NoButtons: PerType<seq<bool>> := PerType([], [], [])

  /** `Math.floor(count / 2)`: how many task buttons a mission gets. */
  function TaskCount(count: nat): nat {
    count / 2
  }

  /** Freshly created task buttons, none of them done yet. */
  function FreshButtons(n: nat): (b: seq<bool>)
    ensures |b| == n && CountDone(b) == 0
  {
    if n == 0 then [] else [false] + FreshButtons(n - 1)
  }

  /** How many task buttons carry the `completed` class. */
  function CountDone(buttons: seq<bool>): (n: nat)
    ensures n <= |buttons|
  {
    if buttons == [] then 0 else (if buttons[0] then 1 else 0) + CountDone(buttons[1..])
  }

  /** A mission and its buttons agree: an unselected mission is all zero and
      has no buttons; a selected one has `floor(count / 2)` buttons and has
      completed as many tasks as buttons are marked done. */
  predicate Consistent(m: Mission, buttons: seq<bool>) {
    if m.selected then |buttons| == TaskCount(m.count) && m.completed == CountDone(buttons)
    else m.count == 0 && m.completed == 0 && buttons == []
  }

  predicate AllConsistent(missions: PerType<Mission>, tasks: PerType<seq<bool>>) {
    forall t :: Consistent(missions.Get(t), tasks.Get(t))
  }

  /** `checkSendButton`: the send section shows iff some mission is selected,
      every selected mission has completed `floor(count / 2)` tasks, and the
      follow is confirmed. */
  predicate SendShown(missions: PerType<Mission>, followCompleted: bool) {
    && (forall t :: !missions.Get(t).selected || missions.Get(t).completed == TaskCount(missions.Get(t).count))
    && (exists t :: missions.Get(t).selected)
    && followCompleted
  }

  /** What the used-followers counter shows: nothing new (no platform yet), or a
      number (`None` is JavaScript's `NaN`). */
  datatype Usage = Untouched | Shows(units: Option<nat>)

  /** How a click on a mission offer ends. */
  datatype Outcome =
    | Deselected                       // the same offer clicked again
    | Selected(buttons: nat)           // selected, with this many task buttons
    | Duplicate(earliest: Option<int>) // refused; the countdown starts from `earliest`

  // ---------------------------------------------------------------------------

  class Page {
    /** `selectedPlatform`. */
    var platform: string
    /** The current value of the username input. */
    var usernameInput: string
    /** `missions`. */
    var missions: PerType<Mission>
    /** The task buttons of each type, `true` for a button marked done. */
    var tasks: PerType<seq<bool>>
    /** `followCompleted`. */
    var followCompleted: bool
    /** `usedCombinations` and its stored copy. */
    const cache: Cache

    ghost predicate Valid()
      reads this, cache
    {
      cache.Valid() && AllConsistent(missions, tasks)
    }

    /** The page as it loads. */
    constructor (cache: Cache)
      requires cache.Valid()
      ensures Valid() && this.cache == cache
      ensures platform == "" && usernameInput == "" && !followCompleted
      ensures missions == NoMissions && tasks == NoButtons
    {
      this.cache := cache;
      platform := "";
      usernameInput := "";
      missions := NoMissions;
      tasks := NoButtons;
      followCompleted := false;
    }

    /** The username the page uses in keys. */
    function Username(): string
      reads this
    {
      NormalizeUsername(usernameInput)
    }

    /** `updateFollowersUsageCounter`. */
    method UsageCounter(now: int) returns (shown: Usage)
      requires Valid()
      modifies cache
      ensures Valid()
      ensures platform == "" ==> shown == Untouched && cache.entries == old(cache.entries)
      ensures platform != "" && Username() == "" ==> shown == Shows(Some(0)) && cache.entries == old(cache.entries)
      ensures platform != "" && Username() != "" ==>
                && cache.entries == Swept(old(cache.entries), now)
                && shown == Shows(UsedUnits(cache.entries, TypePrefix(platform, Username(), Followers)))
    {
      if platform == "" {
        return Untouched;
      }
      var username := NormalizeUsername(usernameInput);
      if username == "" {
        return Shows(Some(0));
      }
      cache.CleanupExpired(now);
      var total := SumUsedUnits(cache.entries, TypePrefix(platform, username, Followers));
      shown := Shows(total);
    }

    /** `selectPlatform`: everything is reset, the counter is refreshed (with
        the username input as it still is), then the input is cleared. */
    method SelectPlatform(p: string, now: int) returns (shown: Usage)
      requires Valid()
      modifies this, cache
      ensures Valid()
      ensures platform == p && usernameInput == "" && !followCompleted
      ensures missions == NoMissions && tasks == NoButtons
      ensures var user := NormalizeUsername(old(usernameInput));
              if p == "" then shown == Untouched && cache.entries == old(cache.entries)
              else if user == "" then shown == Shows(Some(0)) && cache.entries == old(cache.entries)
              else cache.entries == Swept(old(cache.entries), now)
                   && shown == Shows(UsedUnits(cache.entries, TypePrefix(p, user, Followers)))
    {
      platform := p;
      missions := NoMissions;
      tasks := NoButtons;
      followCompleted := false;
      shown := UsageCounter(now);
      usernameInput := "";
    }

    /** The username input's `oninput` handler: the counter is refreshed. */
    method EnterUsername(raw: string, now: int) returns (shown: Usage)
      requires Valid()
      modifies this, cache
      ensures Valid()
      ensures usernameInput == raw
      ensures platform == old(platform) && missions == old(missions) && tasks == old(tasks)
      ensures followCompleted == old(followCompleted)
      ensures platform == "" ==> shown == Untouched && cache.entries == old(cache.entries)
      ensures platform != "" && Username() == "" ==> shown == Shows(Some(0)) && cache.entries == old(cache.entries)
      ensures platform != "" && Username() != "" ==>
                && cache.entries == Swept(old(cache.entries), now)
                && shown == Shows(UsedUnits(cache.entries, TypePrefix(platform, Username(), Followers)))
    {
      usernameInput := raw;
      shown := UsageCounter(now);
    }

    /** `selectMission(type, count)`: the same offer again deselects; a
        followers offer whose key holds a claim after the sweep is refused and
        the earliest claim of the user is looked up for the countdown; any other
        offer is selected with fresh task buttons. */
    method SelectMission(t: MissionType, c: nat, now: int) returns (outcome: Outcome)
      requires Valid()
      modifies this, cache
      ensures Valid()
      ensures platform == old(platform) && usernameInput == old(usernameInput)
      ensures followCompleted == old(followCompleted)
      ensures old(missions.Get(t)).selected && old(missions.Get(t)).count == c ==>
                && outcome == Deselected
                && missions == old(missions).Set(t, Unselected)
                && tasks == old(tasks).Set(t, [])
                && cache.entries == old(cache.entries)
      ensures !(old(missions.Get(t)).selected && old(missions.Get(t)).count == c) ==>
                && (t == Followers ==> cache.entries == Swept(old(cache.entries), now))
                && (t != Followers ==> cache.entries == old(cache.entries))
                && (outcome.Duplicate? <==> t == Followers && IsClaimed(cache.entries, ClaimKey(platform, Username(), t, c)))
                && (outcome.Duplicate? ==>
                      && missions == old(missions) && tasks == old(tasks)
                      && IsEarliest(cache.entries, TypePrefix(platform, Username(), t), outcome.earliest))
                && (!outcome.Duplicate? ==>
                      && outcome == Selected(TaskCount(c))
                      && missions == old(missions).Set(t, Mission(true, c, 0))
                      && tasks == old(tasks).Set(t, FreshButtons(TaskCount(c))))
    {
      var m := missions.Get(t);
      if m.selected && m.count == c {
        missions := missions.Set(t, Unselected);
        tasks := tasks.Set(t, []);
        return Deselected;
      }
      var username := NormalizeUsername(usernameInput);
      var key := ClaimKey(platform, username, t, c);
      if t == Followers {
        cache.CleanupExpired(now);
        if key in cache.entries && cache.entries[key].Record? && cache.entries[key].timestamp != 0 {
          var earliest := EarliestTimestamp(cache.entries, TypePrefix(platform, username, t));
          return Duplicate(earliest);
        }
      }
      missions := missions.Set(t, Mission(true, c, 0));
      tasks := tasks.Set(t, FreshButtons(TaskCount(c)));
      outcome := Selected(TaskCount(c));
    }

    /** `completeMissionAction(type, action, button)`: a task button not yet
        done is marked and counts once; a button already done, or one that does
        not exist, changes nothing. */
    method CompleteTask(t: MissionType, action: nat)
      requires Valid()
      modifies this
      ensures Valid()
      ensures platform == old(platform) && usernameInput == old(usernameInput)
      ensures followCompleted == old(followCompleted)
      ensures var b := old(tasks.Get(t));
              if 1 <= action <= |b| && !b[action - 1] then
                && tasks == old(tasks).Set(t, b[action - 1 := true])
                && missions == old(missions).Set(t, old(missions.Get(t)).(completed := old(missions.Get(t)).completed + 1))
              else
                tasks == old(tasks) && missions == old(missions)
    {
      var b := tasks.Get(t);
      if 1 <= action <= |b| && !b[action - 1] {
        var m := missions.Get(t);
        CountDoneMark(b, action - 1);
        tasks := tasks.Set(t, b[action - 1 := true]);
        missions := missions.Set(t, m.(completed := m.completed + 1));
      }
    }

    /** The follow button and the "already followed" box set `followCompleted`. */
    method SetFollowCompleted(done: bool)
      requires Valid()
      modifies this
      ensures Valid()
      ensures followCompleted == done
      ensures platform == old(platform) && usernameInput == old(usernameInput)
      ensures missions == old(missions) && tasks == old(tasks)
    {
      followCompleted := done;
    }

    /** The send button's handler: a selected followers mission is recorded
        under its key with the time of sending; the map is then stored. No
        likes or comments key is written. */
    method Send(now: int)
      requires Valid()
      modifies cache
      ensures Valid()
      ensures cache.entries ==
                if missions.followers.selected
                then old(cache.entries)[ClaimKey(platform, Username(), Followers, missions.followers.count) := Record(now, true)]
                else old(cache.entries)
    {
      var username := NormalizeUsername(usernameInput);
      var types := [Followers, Likes, Comments];
      var i := 0;
      while i < |types|
        invariant 0 <= i <= |types|
        invariant cache.entries ==
                    if i > 0 && missions.followers.selected
                    then old(cache.entries)[ClaimKey(platform, username, Followers, missions.followers.count) := Record(now, true)]
                    else old(cache.entries)
      {
        var t := types[i];
        if missions.Get(t).selected && t == Followers {
          cache.Put(ClaimKey(platform, username, t, missions.Get(t).count), Record(now, true));
        }
        i := i + 1;
      }
      cache.Persist();
    }
  }

  // ---------------------------------------------------------------------------

  /** Marking a button that was not done adds exactly one to the done count. */
  lemma {:induction false} CountDoneMark(b: seq<bool>, i: nat)
    requires i < |b| && !b[i]
    ensures CountDone(b[i := true]) == CountDone(b) + 1
  {
    if i > 0 {
      assert b[i := true][1..] == b[1..][i - 1 := true];
      CountDoneMark(b[1..], i - 1);
    } else {
      assert b[i := true][1..] == b[1..];
    }
  }

  /** Every button is done exactly when the done count reaches the number of buttons. */
  lemma {:induction false} CountDoneAll(b: seq<bool>)
    ensures CountDone(b) == |b| <==> forall i :: 0 <= i < |b| ==> b[i]
  {
    if b != [] {
      CountDoneAll(b[1..]);
      if CountDone(b) == |b| {
        assert b[0];
        forall i | 0 <= i < |b| ensures b[i] {
          if i > 0 { assert b[i] == b[1..][i - 1]; }
        }
      }
      if forall i :: 0 <= i < |b| ==> b[i] {
        assert forall i :: 0 <= i < |b[1..]| ==> b[1..][i];
      }
    }
  }

  /** A consistent mission never counts more tasks than it has buttons. */
  lemma CompletedBounded(m: Mission, b: seq<bool>)
    requires Consistent(m, b)
    ensures m.completed <= TaskCount(m.count)
  {
  }

  /** With missions and buttons consistent, the send section shows exactly when
      the follow is confirmed, some mission is selected, and every task button
      of every selected mission is done. */
  lemma SendShownIffAllTasksDone(missions: PerType<Mission>, tasks: PerType<seq<bool>>, followCompleted: bool)
    requires AllConsistent(missions, tasks)
    ensures SendShown(missions, followCompleted) <==>
              && followCompleted
              && (exists t :: missions.Get(t).selected)
              && (forall t, i :: missions.Get(t).selected && 0 <= i < |tasks.Get(t)| ==> tasks.Get(t)[i])
  {
    forall t
      ensures missions.Get(t).selected ==>
                (missions.Get(t).completed == TaskCount(missions.Get(t).count) <==>
                 forall i :: 0 <= i < |tasks.Get(t)| ==> tasks.Get(t)[i])
    {
      CountDoneAll(tasks.Get(t));
    }
  }

  /** Sending records no key of the other mission types for the same user. */
  lemma SendLeavesOtherTypes(m: Store, platform: string, username: string, count: nat,
                             t: MissionType, c: nat, now: int)
    requires t != Followers
    ensures var key := ClaimKey(platform, username, t, c);
            var m' := m[ClaimKey(platform, username, Followers, count) := Record(now, true)];
            (key in m' <==> key in m) && (key in m ==> m'[key] == m[key])
  {
    KeysOfTypesDiffer(platform, username, t, Followers, c, count);
  }
}
