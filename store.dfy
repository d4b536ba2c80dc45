/**
 * The application state store of the web front end: one mutable record
 * holding the current menu, the ground information and the section data,
 * a registry of listeners per event name, and the operations that edit the
 * section (single-field update, shallow merge, cell-count resize), reset the
 * whole state and load it from parsed JSON.
 *
 * JavaScript objects are shared by reference. `fromJSON` builds the new
 * state with a top-level spread over the default state, so every group the
 * loaded data does not carry is the very object of the defaults; later
 * in-place writes then reach the defaults too. The store tracks this with
 * `shared` (the groups that are currently the defaults' own objects) and
 * `defaults` (the current contents of the default state).
 */
module Store {
  import opened Section

  // ----- events and listeners -----

  datatype EventName = MenuChange | SectionDataChange | StateChange | Unknown(name: string)

  /** The three event names the registry knows; `on` and `off` ignore any other. */
  predicate Known(e: EventName)
  {
    !e.Unknown?
  }

  /** Callbacks are compared by identity only. */
  type Callback = nat

  datatype AppState = AppState(currentMenu: string, groundInfo: GroundInfo, sectionData: SectionData)

  datatype Payload = StatePayload(state: AppState) | SectionPayload(section: SectionData) | MenuPayload(menu: string)

  /** One invocation of a listener: which callback ran, for which event, with what argument. */
  datatype Call = Call(callback: Callback, event: EventName, payload: Payload)

  /** The invocations `emit` makes: one per registered callback, in registration order. */
  function Calls(cbs: seq<Callback>, e: EventName, p: Payload): (r: seq<Call>)
    ensures |r| == |cbs|
    ensures forall i :: 0 <= i < |cbs| ==> r[i].callback == cbs[i] && r[i].event == e && r[i].payload == p
  {
    seq(|cbs|, i requires 0 <= i < |cbs| => Call(cbs[i], e, p))
  }

  function Registered(listeners: map<EventName, seq<Callback>>, e: EventName): seq<Callback>
  {
    if e in listeners then listeners[e] else []
  }

  /** `filter(cb => cb !== callback)`. */
  function Remove(cbs: seq<Callback>, cb: Callback): seq<Callback>
  {
    if |cbs| == 0 then [] else (if cbs[0] == cb then [] else [cbs[0]]) + Remove(cbs[1..], cb)
  }

  /** `off` removes every registration of the callback and keeps every other one, in order and with its multiplicity. */
  lemma {:induction false} RemoveSpec(cbs: seq<Callback>, cb: Callback)
    ensures cb !in Remove(cbs, cb)
    ensures forall other :: other != cb ==> multiset(Remove(cbs, cb))[other] == multiset(cbs)[other]
    ensures cb !in cbs ==> Remove(cbs, cb) == cbs
  {
    if |cbs| > 0 {
      RemoveSpec(cbs[1..], cb);
      assert cbs == [cbs[0]] + cbs[1..];
    }
  }

  // ----- the section fields `updateSectionData` writes -----

  datatype SectionKey = CulvertCountKey | HKey | H4Key | BKey | UTKey | LTKey | WLKey | WRKey
                      | MiddleWallsKey | HaunchKey | ColumnGirderKey | AntiFloatKey

  datatype FieldValue =
    | Count(n: int)
    | Number(r: real)
    | Widths(ws: seq<real>)
    | Walls(walls: seq<MiddleWall>)
    | Haunches(h: Haunch)
    | Girder(g: Option<ColumnGirder>)
    | Float(af: Option<AntiFloat>)

  /** The value has the shape the field holds. */
  predicate Fits(k: SectionKey, v: FieldValue)
  {
    match k
    case CulvertCountKey => v.Count?
    case HKey | H4Key | UTKey | LTKey | WLKey | WRKey => v.Number?
    case BKey => v.Widths?
    case MiddleWallsKey => v.Walls?
    case HaunchKey => v.Haunches?
    case ColumnGirderKey => v.Girder?
    case AntiFloatKey => v.Float?
  }

  /** `sectionData[key]`. */
  function Get(d: SectionData, k: SectionKey): (v: FieldValue)
    ensures Fits(k, v)
  {
    match k
    case CulvertCountKey => Count(d.culvertCount)
    case HKey => Number(d.H)
    case H4Key => Number(d.H4)
    case BKey => Widths(d.B)
    case UTKey => Number(d.UT)
    case LTKey => Number(d.LT)
    case WLKey => Number(d.WL)
    case WRKey => Number(d.WR)
    case MiddleWallsKey => Walls(d.middleWalls)
    case HaunchKey => Haunches(d.haunch)
    case ColumnGirderKey => Girder(d.columnGirder)
    case AntiFloatKey => Float(d.antiFloat)
  }

  /** `sectionData[key] = value`. */
  function Assign(d: SectionData, k: SectionKey, v: FieldValue): SectionData
    requires Fits(k, v)
  {
    match k
    case CulvertCountKey => d.(culvertCount := v.n)
    case HKey => d.(H := v.r)
    case H4Key => d.(H4 := v.r)
    case BKey => d.(B := v.ws)
    case UTKey => d.(UT := v.r)
    case LTKey => d.(LT := v.r)
    case WLKey => d.(WL := v.r)
    case WRKey => d.(WR := v.r)
    case MiddleWallsKey => d.(middleWalls := v.walls)
    case HaunchKey => d.(haunch := v.h)
    case ColumnGirderKey => d.(columnGirder := v.g)
    case AntiFloatKey => d.(antiFloat := v.af)
  }

  /** A single-field update writes the field it names and changes no other. */
  lemma AssignChangesOnlyKey(d: SectionData, k: SectionKey, v: FieldValue, j: SectionKey)
    requires Fits(k, v)
    ensures Get(Assign(d, k, v), j) == if j == k then v else Get(d, j)
  {
  }

  predicate FitsAll(m: map<SectionKey, FieldValue>)
  {
    forall k :: k in m ==> Fits(k, m[k])
  }

  function Pick(m: map<SectionKey, FieldValue>, d: SectionData, k: SectionKey): (v: FieldValue)
    requires FitsAll(m)
    ensures Fits(k, v)
  {
    if k in m then m[k] else Get(d, k)
  }

  /** `{ ...sectionData, ...data }`: every key the data carries overrides, every other key is kept. */
  function Merge(d: SectionData, m: map<SectionKey, FieldValue>): SectionData
    requires FitsAll(m)
  {
    SectionData(Pick(m, d, CulvertCountKey).n, Pick(m, d, HKey).r, Pick(m, d, H4Key).r, Pick(m, d, BKey).ws,
                Pick(m, d, UTKey).r, Pick(m, d, LTKey).r, Pick(m, d, WLKey).r, Pick(m, d, WRKey).r,
                Pick(m, d, MiddleWallsKey).walls, Pick(m, d, HaunchKey).h, Pick(m, d, ColumnGirderKey).g,
                Pick(m, d, AntiFloatKey).af)
  }

  lemma MergeOverrides(d: SectionData, m: map<SectionKey, FieldValue>, k: SectionKey)
    requires FitsAll(m)
    ensures Get(Merge(d, m), k) == if k in m then m[k] else Get(d, k)
  {
  }

  /** Merging an empty object changes nothing. */
  lemma MergeEmpty(d: SectionData)
    ensures Merge(d, map[]) == d
  {
  }

  // ----- ground information -----

  datatype GroundKey = EarthCoverKey | GroundwaterKey | FrictionKey | SoilWeightKey

  function AssignGround(g: GroundInfo, k: GroundKey, v: real): GroundInfo
  {
    match k
    case EarthCoverKey => g.(earthCoverDepth := v)
    case GroundwaterKey => g.(groundwaterLevel := v)
    case FrictionKey => g.(frictionAngle := v)
    case SoilWeightKey => g.(soilUnitWeight := v)
  }

  // ----- resizing the parallel arrays -----

  /** An array cut or padded to length `n`: its first entries are kept, every added slot holds `pad`. */
  function Resized<T>(s: seq<T>, n: nat, pad: T): (r: seq<T>)
    ensures |r| == n
  {
    seq(n, i requires 0 <= i < n => if i < |s| then s[i] else pad)
  }

  /** Resizing keeps the common prefix and fills the tail, and a second resize to the same length changes nothing. */
  lemma ResizedSpec<T>(s: seq<T>, n: nat, pad: T)
    ensures Resized(s, n, pad)[..Min(|s|, n)] == s[..Min(|s|, n)]
    ensures forall i :: |s| <= i < n ==> Resized(s, n, pad)[i] == pad
    ensures Resized(Resized(s, n, pad), n, pad) == Resized(s, n, pad)
    ensures |s| == n ==> Resized(s, n, pad) == s
  {
  }

  /** The pad-with-push, then truncate-by-length idiom of `setCulvertCount`. */
  method Resize<T>(s: seq<T>, n: nat, pad: T) returns (r: seq<T>)
    ensures r == Resized(s, n, pad)
  {
    r := s;
    while |r| < n
      invariant |s| <= |r|
      invariant |s| <= n ==> |r| <= n
      invariant forall i :: 0 <= i < |r| ==> r[i] == if i < |s| then s[i] else pad
    {
      r := r + [pad];
    }
    r := r[..n];
  }

  /** `Math.max(1, Math.min(10, count))`. */
  function Clamp(count: int): (c: int)
    ensures 1 <= c <= 10
    ensures 1 <= count <= 10 ==> c == count
    ensures count < 1 ==> c == 1
    ensures count > 10 ==> c == 10
  {
    Max(1, Min(10, count))
  }

  const DefaultWall := MiddleWall(Continuous, 600.0)
  const DefaultWallHaunch := WallHaunch(Corner(150.0, 150.0), Corner(150.0, 150.0))

  /** The section `setCulvertCount` leaves: count clamped, the three parallel arrays resized. */
  function WithCulvertCount(d: SectionData, count: int): SectionData
  {
    var c := Clamp(count);
    d.(culvertCount := c,
       B := Resized(d.B, c, 4000.0),
       middleWalls := Resized(d.middleWalls, c - 1, DefaultWall),
       haunch := d.haunch.(middleWalls := Resized(d.haunch.middleWalls, c - 1, DefaultWallHaunch)))
  }

  /** The cell count and the three arrays agree: `count` cells, `count - 1` walls and wall haunches. */
  predicate Shaped(d: SectionData)
  {
    1 <= d.culvertCount <= 10 && |d.B| == d.culvertCount
    && |d.middleWalls| == d.culvertCount - 1 && |d.haunch.middleWalls| == d.culvertCount - 1
  }

  /**
   * `setCulvertCount` always leaves a shaped section, keeps the existing
   * prefixes of the three arrays, pads with 4000, a 600 continuous wall and
   * 150 x 150 corners, touches no other field, and repeating it changes nothing.
   */
  lemma CulvertCountSpec(d: SectionData, count: int)
    ensures var r := WithCulvertCount(d, count);
      && Shaped(r)
      && r.culvertCount == Clamp(count)
      && r.B[..Min(|d.B|, r.culvertCount)] == d.B[..Min(|d.B|, r.culvertCount)]
      && (forall i :: |d.B| <= i < r.culvertCount ==> r.B[i] == 4000.0)
      && r.middleWalls[..Min(|d.middleWalls|, r.culvertCount - 1)] == d.middleWalls[..Min(|d.middleWalls|, r.culvertCount - 1)]
      && (forall i :: |d.middleWalls| <= i < r.culvertCount - 1 ==> r.middleWalls[i] == DefaultWall)
      && r.haunch.middleWalls[..Min(|d.haunch.middleWalls|, r.culvertCount - 1)]
         == d.haunch.middleWalls[..Min(|d.haunch.middleWalls|, r.culvertCount - 1)]
      && (forall i :: |d.haunch.middleWalls| <= i < r.culvertCount - 1 ==> r.haunch.middleWalls[i] == DefaultWallHaunch)
      && r.haunch.leftWall == d.haunch.leftWall && r.haunch.rightWall == d.haunch.rightWall
      && r.(culvertCount := d.culvertCount, B := d.B, middleWalls := d.middleWalls, haunch := d.haunch) == d
      && WithCulvertCount(r, count) == r
  {
    var c := Clamp(count);
    ResizedSpec(d.B, c, 4000.0);
    ResizedSpec(d.middleWalls, c - 1, DefaultWall);
    ResizedSpec(d.haunch.middleWalls, c - 1, DefaultWallHaunch);
  }

  // ----- the default state -----

  const DefaultMenu := "프로젝트 정보"

  function DefaultSection(): SectionData
  {
    SectionData(3, 4200.0, 0.0, [4000.0, 4000.0, 4000.0], 600.0, 800.0, 600.0, 600.0,
                [DefaultWall, DefaultWall],
                Haunch(Some(DefaultWallHaunch), Some(DefaultWallHaunch), [DefaultWallHaunch, DefaultWallHaunch]),
                Some(ColumnGirder(3000.0, 500.0, 0.0, 0.0)),
                Some(AntiFloat(false, 500.0, 500.0, 300.0)))
  }

  function DefaultState(): AppState
  {
    AppState(DefaultMenu, GroundInfo(2000.0, 3000.0, 30.0, 18.0), DefaultSection())
  }

  /** The default section already has the shape `setCulvertCount(3)` gives. */
  lemma DefaultSectionShaped()
    ensures Shaped(DefaultSection())
    ensures WithCulvertCount(DefaultSection(), 3) == DefaultSection()
  {
    CulvertCountSpec(DefaultSection(), 3);
    assert Resized(DefaultSection().B, 3, 4000.0) == DefaultSection().B;
    assert Resized(DefaultSection().middleWalls, 2, DefaultWall) == DefaultSection().middleWalls;
    assert Resized(DefaultSection().haunch.middleWalls, 2, DefaultWallHaunch) == DefaultSection().haunch.middleWalls;
  }

  /** The top-level keys of parsed JSON: each group is either carried or absent. */
  datatype StatePatch = StatePatch(currentMenu: Option<string>, groundInfo: Option<GroundInfo>, sectionData: Option<SectionData>)

  /** `{ ...base, ...data }` over the top-level keys. */
  function Spread(base: AppState, p: StatePatch): AppState
  {
    AppState(if p.currentMenu.Some? then p.currentMenu.value else base.currentMenu,
             if p.groundInfo.Some? then p.groundInfo.value else base.groundInfo,
             if p.sectionData.Some? then p.sectionData.value else base.sectionData)
  }

  /** Objects of the state that can be the defaults' own: the ground group, the section record, its haunch record. */
  datatype Group = GroundGroup | SectionGroup | HaunchGroup

  /** The groups a top-level spread over the defaults leaves pointing at the defaults' objects. */
  function Unsupplied(p: StatePatch): (s: set<Group>)
    ensures GroundGroup in s <==> p.groundInfo.None?
    ensures SectionGroup in s <==> p.sectionData.None?
    ensures HaunchGroup in s <==> p.sectionData.None?
  {
    (if p.groundInfo.None? then {GroundGroup} else {}) + (if p.sectionData.None? then {SectionGroup, HaunchGroup} else {})
  }

  const KnownEvents := {MenuChange, SectionDataChange, StateChange}

  class StateStore {
    var state: AppState
    /** Current contents of the default state, which `reset` deep-copies. */
    var defaults: AppState
    /** Groups of `state` that are the very objects of `defaults`. */
    var shared: set<Group>
    var listeners: map<EventName, seq<Callback>>
    /** Every listener invocation so far, in order. */
    var log: seq<Call>

    /**
     * Shared objects show the same contents on both sides; the section
     * record can only be shared together with the haunch record it holds;
     * the registry has exactly the three known event names.
     */
    predicate Valid()
      reads this
    {
      && (GroundGroup in shared ==> state.groundInfo == defaults.groundInfo)
      && (SectionGroup in shared ==> state.sectionData == defaults.sectionData && HaunchGroup in shared)
      && (HaunchGroup in shared ==> state.sectionData.haunch == defaults.sectionData.haunch)
      && listeners.Keys == KnownEvents
    }

    /** The defaults are untouched and nothing aliases them: `reset` restores the shipped defaults. */
    predicate Pristine()
      reads this
    {
      defaults == DefaultState() && shared == {}
    }

    constructor()
      ensures Valid() && Pristine()
      ensures state == DefaultState() && log == []
      ensures forall e :: e in KnownEvents ==> listeners[e] == []
    {
      state := DefaultState();
      defaults := DefaultState();
      shared := {};
      listeners := map[MenuChange := [], SectionDataChange := [], StateChange := []];
      log := [];
    }

    /** `on`: an unknown event name is ignored; otherwise the callback is appended. */
    method On(e: EventName, cb: Callback)
      requires Valid()
      modifies this
      ensures Valid()
      ensures old(Pristine()) ==> Pristine()
      ensures listeners == if Known(e) then old(listeners)[e := old(listeners)[e] + [cb]] else old(listeners)
      ensures state == old(state) && defaults == old(defaults) && shared == old(shared) && log == old(log)
    {
      if e in listeners {
        listeners := listeners[e := listeners[e] + [cb]];
      }
    }

    /** `off`: every registration of the callback for that event is dropped. */
    method Off(e: EventName, cb: Callback)
      requires Valid()
      modifies this
      ensures Valid()
      ensures old(Pristine()) ==> Pristine()
      ensures listeners == if Known(e) then old(listeners)[e := Remove(old(listeners)[e], cb)] else old(listeners)
      ensures state == old(state) && defaults == old(defaults) && shared == old(shared) && log == old(log)
    {
      if e in listeners {
        listeners := listeners[e := Remove(listeners[e], cb)];
      }
    }

    /** `emit`: every callback registered for the event runs once, in registration order. */
    method Emit(e: EventName, p: Payload)
      modifies this
      ensures log == old(log) + Calls(Registered(listeners, e), e, p)
      ensures state == old(state) && defaults == old(defaults) && shared == old(shared) && listeners == old(listeners)
    {
      var cbs := Registered(listeners, e);
      ghost var start := log;
      var i := 0;
      while i < |cbs|
        invariant 0 <= i <= |cbs|
        invariant log == start + Calls(cbs[..i], e, p)
        invariant state == old(state) && defaults == old(defaults) && shared == old(shared) && listeners == old(listeners)
      {
        log := log + [Call(cbs[i], e, p)];
        i := i + 1;
        assert Calls(cbs[..i], e, p) == Calls(cbs[..i - 1], e, p) + [Call(cbs[i - 1], e, p)];
      }
      assert cbs[..i] == cbs;
    }

    method SetCurrentMenu(menu: string)
      requires Valid()
      modifies this
      ensures Valid()
      ensures old(Pristine()) ==> Pristine()
      ensures state == old(state).(currentMenu := menu)
      ensures defaults == old(defaults) && shared == old(shared) && listeners == old(listeners)
      ensures log == old(log) + Calls(Registered(listeners, MenuChange), MenuChange, MenuPayload(menu))
    {
      state := state.(currentMenu := menu);
      Emit(MenuChange, MenuPayload(menu));
    }

    /** `set`: a top-level merge with a caller's object; a supplied group stops being the defaults' own. */
    method Set(p: StatePatch)
      requires Valid()
      modifies this
      ensures Valid()
      ensures old(Pristine()) ==> Pristine()
      ensures state == Spread(old(state), p)
      ensures shared == old(shared) * Unsupplied(p) && defaults == old(defaults) && listeners == old(listeners)
      ensures log == old(log) + Calls(Registered(listeners, StateChange), StateChange, StatePayload(state))
    {
      state := Spread(state, p);
      shared := shared * Unsupplied(p);
      Emit(StateChange, StatePayload(state));
    }

    /** `updateGroundInfo`: an in-place write, which reaches the defaults while the group is theirs. */
    method UpdateGroundInfo(k: GroundKey, v: real)
      requires Valid()
      modifies this
      ensures Valid()
      ensures old(Pristine()) ==> Pristine()
      ensures state == old(state).(groundInfo := AssignGround(old(state).groundInfo, k, v))
      ensures defaults == if GroundGroup in old(shared) then old(defaults).(groundInfo := state.groundInfo) else old(defaults)
      ensures shared == old(shared) && listeners == old(listeners)
      ensures log == old(log) + Calls(Registered(listeners, StateChange), StateChange, StatePayload(state))
    {
      state := state.(groundInfo := AssignGround(state.groundInfo, k, v));
      if GroundGroup in shared {
        defaults := defaults.(groundInfo := state.groundInfo);
      }
      Emit(StateChange, StatePayload(state));
    }

    /** Replacing the haunch reference of an unshared section record unshares the haunch. */
    function SharedAfterAssign(k: SectionKey): set<Group>
      reads this
    {
      if k == HaunchKey && SectionGroup !in shared then shared - {HaunchGroup} else shared
    }

    /** `updateSectionData`: an in-place write of one key, which reaches the defaults while the record is theirs. */
    method UpdateSectionData(k: SectionKey, v: FieldValue)
      requires Valid() && Fits(k, v)
      modifies this
      ensures Valid()
      ensures old(Pristine()) ==> Pristine()
      ensures state == old(state).(sectionData := Assign(old(state).sectionData, k, v))
      ensures defaults == if SectionGroup in old(shared) then old(defaults).(sectionData := state.sectionData) else old(defaults)
      ensures shared == old(SharedAfterAssign(k)) && listeners == old(listeners)
      ensures log == old(log) + Calls(Registered(listeners, SectionDataChange), SectionDataChange, SectionPayload(state.sectionData))
    {
      shared := SharedAfterAssign(k);
      state := state.(sectionData := Assign(state.sectionData, k, v));
      if SectionGroup in shared {
        defaults := defaults.(sectionData := state.sectionData);
      }
      Emit(SectionDataChange, SectionPayload(state.sectionData));
    }

    /** `setSectionData`: a new record merged from the old one; its haunch stays shared unless the data replaces it. */
    method SetSectionData(m: map<SectionKey, FieldValue>)
      requires Valid() && FitsAll(m)
      modifies this
      ensures Valid()
      ensures old(Pristine()) ==> Pristine()
      ensures state == old(state).(sectionData := Merge(old(state).sectionData, m))
      ensures shared == old(shared) - {SectionGroup} - (if HaunchKey in m then {HaunchGroup} else {})
      ensures defaults == old(defaults) && listeners == old(listeners)
      ensures log == old(log) + Calls(Registered(listeners, SectionDataChange), SectionDataChange, SectionPayload(state.sectionData))
    {
      state := state.(sectionData := Merge(state.sectionData, m));
      shared := shared - {SectionGroup} - (if HaunchKey in m then {HaunchGroup} else {});
      Emit(SectionDataChange, SectionPayload(state.sectionData));
    }

    /**
     * `setCulvertCount`: the three arrays are rebuilt as copies, then written
     * into the section record and into its haunch record in place.
     */
    method SetCulvertCount(count: int)
      requires Valid()
      modifies this
      ensures Valid()
      ensures old(Pristine()) ==> Pristine()
      ensures state == old(state).(sectionData := WithCulvertCount(old(state).sectionData, count))
      ensures Shaped(state.sectionData)
      ensures defaults == if SectionGroup in old(shared) then old(defaults).(sectionData := state.sectionData)
                          else if HaunchGroup in old(shared) then old(defaults).(sectionData := old(defaults).sectionData.(haunch := state.sectionData.haunch))
                          else old(defaults)
      ensures shared == old(shared) && listeners == old(listeners)
      ensures log == old(log) + Calls(Registered(listeners, SectionDataChange), SectionDataChange, SectionPayload(state.sectionData))
    {
      var c := Clamp(count);
      var d := state.sectionData;
      var newB := Resize(d.B, c, 4000.0);
      var newWalls := Resize(d.middleWalls, c - 1, DefaultWall);
      var newHaunches := Resize(d.haunch.middleWalls, c - 1, DefaultWallHaunch);
      CulvertCountSpec(d, count);
      WriteCounted(c, newB, newWalls, newHaunches);
      Emit(SectionDataChange, SectionPayload(state.sectionData));
    }

    /** The in-place writes of `setCulvertCount`, mirrored into whatever the defaults share. */
    method WriteCounted(c: int, newB: seq<real>, newWalls: seq<MiddleWall>, newHaunches: seq<WallHaunch>)
      requires Valid()
      modifies this
      ensures Valid()
      ensures state == old(state).(sectionData := old(state).sectionData.(culvertCount := c, B := newB, middleWalls := newWalls,
                                     haunch := old(state).sectionData.haunch.(middleWalls := newHaunches)))
      ensures defaults == if SectionGroup in old(shared) then old(defaults).(sectionData := state.sectionData)
                          else if HaunchGroup in old(shared) then old(defaults).(sectionData := old(defaults).sectionData.(haunch := state.sectionData.haunch))
                          else old(defaults)
      ensures shared == old(shared) && listeners == old(listeners) && log == old(log)
    {
      var h := state.sectionData.haunch.(middleWalls := newHaunches);
      if HaunchGroup in shared {
        defaults := defaults.(sectionData := defaults.sectionData.(haunch := h));
      }
      state := state.(sectionData := state.sectionData.(culvertCount := c, B := newB, middleWalls := newWalls, haunch := h));
      if SectionGroup in shared {
        defaults := defaults.(sectionData := state.sectionData);
      }
    }

    /** `reset`: a deep copy of the current defaults, then three notifications. */
    method Reset()
      requires Valid()
      modifies this
      ensures Valid()
      ensures old(Pristine()) ==> Pristine()
      ensures state == old(defaults) && defaults == old(defaults) && shared == {} && listeners == old(listeners)
      ensures log == old(log) + Calls(Registered(listeners, StateChange), StateChange, StatePayload(state))
                              + Calls(Registered(listeners, SectionDataChange), SectionDataChange, SectionPayload(state.sectionData))
                              + Calls(Registered(listeners, MenuChange), MenuChange, MenuPayload(state.currentMenu))
    {
      state := defaults;
      shared := {};
      NotifyAll();
    }

    /** The three notifications `reset` and `fromJSON` send, in that order. */
    method NotifyAll()
      modifies this
      ensures log == old(log) + Calls(Registered(listeners, StateChange), StateChange, StatePayload(state))
                              + Calls(Registered(listeners, SectionDataChange), SectionDataChange, SectionPayload(state.sectionData))
                              + Calls(Registered(listeners, MenuChange), MenuChange, MenuPayload(state.currentMenu))
      ensures state == old(state) && defaults == old(defaults) && shared == old(shared) && listeners == old(listeners)
    {
      Emit(StateChange, StatePayload(state));
      Emit(SectionDataChange, SectionPayload(state.sectionData));
      Emit(MenuChange, MenuPayload(state.currentMenu));
    }

    /**
     * `fromJSON` as written: a parse failure (`None`) changes nothing and
     * answers false; otherwise the state is the spread of the data over the
     * defaults, and every group the data lacks is the defaults' own object.
     */
    method FromJson(parsed: Option<StatePatch>) returns (ok: bool)
      requires Valid()
      modifies this
      ensures Valid()
      ensures ok == parsed.Some?
      ensures !ok ==> state == old(state) && shared == old(shared) && log == old(log)
      ensures ok ==> state == Spread(old(defaults), parsed.value) && shared == Unsupplied(parsed.value)
      ensures ok ==> log == old(log) + Calls(Registered(listeners, StateChange), StateChange, StatePayload(state))
                                     + Calls(Registered(listeners, SectionDataChange), SectionDataChange, SectionPayload(state.sectionData))
                                     + Calls(Registered(listeners, MenuChange), MenuChange, MenuPayload(state.currentMenu))
      ensures defaults == old(defaults) && listeners == old(listeners)
    {
      if parsed.None? {
        return false;
      }
      state := Spread(defaults, parsed.value);
      shared := Unsupplied(parsed.value);
      NotifyAll();
      ok := true;
    }

    /** `fromJSON` spreading the data over a deep copy of the defaults, so that nothing is shared. */
    method FromJsonCopy(parsed: Option<StatePatch>) returns (ok: bool)
      requires Valid()
      modifies this
      ensures Valid()
      ensures old(Pristine()) ==> Pristine()
      ensures ok == parsed.Some?
      ensures !ok ==> state == old(state) && shared == old(shared) && log == old(log)
      ensures ok ==> state == Spread(old(defaults), parsed.value) && shared == {}
      ensures ok ==> log == old(log) + Calls(Registered(listeners, StateChange), StateChange, StatePayload(state))
                                     + Calls(Registered(listeners, SectionDataChange), SectionDataChange, SectionPayload(state.sectionData))
                                     + Calls(Registered(listeners, MenuChange), MenuChange, MenuPayload(state.currentMenu))
      ensures defaults == old(defaults) && listeners == old(listeners)
    {
      if parsed.None? {
        return false;
      }
      state := Spread(defaults, parsed.value);
      shared := {};
      NotifyAll();
      ok := true;
    }
  }

  /**
   * As written: loading data without a section, editing the clear height and
   * resetting leaves the edited height in place of the default 4200.
   */
  method ResetAfterLoadKeepsEdit() returns (h: real)
    ensures h == 5000.0
  {
    var s := new StateStore();
    var ok := s.FromJson(Some(StatePatch(None, None, None)));
    s.UpdateSectionData(HKey, Number(5000.0));
    s.Reset();
    h := s.state.sectionData.H;
  }

  /** With the copying load the same edits are undone by `reset`. */
  method ResetAfterCopyingLoadRestores() returns (h: real)
    ensures h == 4200.0
  {
    var s := new StateStore();
    var ok := s.FromJsonCopy(Some(StatePatch(None, None, None)));
    s.UpdateSectionData(HKey, Number(5000.0));
    s.Reset();
    h := s.state.sectionData.H;
  }
}
