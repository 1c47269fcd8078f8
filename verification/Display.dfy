/** The display-layout editor: edits of a desktop's screens, as pure functions over a list of them. */
module Display {
  import opened Domain

  datatype Mode = Mode(id: string, width: real, height: real, rate: real)

  datatype Rotation = Normal | Left | Right | Inverted

  datatype Screen = Screen(
    name: string, enabled: bool, mode: Option<string>, x: real, y: real,
    rotation: Rotation, scale: real, primary: bool, modes: seq<Mode>)

  datatype Size = Size(width: real, height: real)

  /** `Math.round`: halves go up. */
  function Round(r: real): real { (r + 0.5).Floor as real }

  function Scaled(pixels: real, scale: real): real { Round(pixels * scale) }

  function FindMode(modes: seq<Mode>, id: string): Option<Mode> {
    if modes == [] then None else if modes[0].id == id then Some(modes[0]) else FindMode(modes[1..], id)
  }

  function CurrentMode(s: Screen): Option<Mode> {
    if s.mode.None? then None else FindMode(s.modes, s.mode.value)
  }

  function LogicalSize(s: Screen): Size {
    match CurrentMode(s)
    case None => Size(0.0, 0.0)
    case Some(mode) =>
      var turned := s.rotation.Left? || s.rotation.Right?;
      var width := if turned then mode.height else mode.width;
      var height := if turned then mode.width else mode.height;
      Size(Scaled(width, s.scale), Scaled(height, s.scale))
  }

  function Find(screens: seq<Screen>, name: string): Option<nat> {
    if screens == [] then None
    else if screens[0].name == name then Some(0)
    else
      var i := Find(screens[1..], name);
      if i.None? then None else Some(i.value + 1)
  }

  lemma {:induction false} FindIsFirst(screens: seq<Screen>, name: string)
    ensures Find(screens, name).Some? ==>
              && Find(screens, name).value < |screens| && screens[Find(screens, name).value].name == name
              && (forall j :: 0 <= j < Find(screens, name).value ==> screens[j].name != name)
    ensures Find(screens, name).None? ==> forall j :: 0 <= j < |screens| ==> screens[j].name != name
  {
    if screens != [] {
      FindIsFirst(screens[1..], name);
      assert forall j :: 1 <= j < |screens| ==> screens[j] == screens[1..][j - 1];
    }
  }

  /** The screens that are on, in order. */
  function On(screens: seq<Screen>): seq<Screen> {
    if screens == [] then [] else (if screens[0].enabled then [screens[0]] else []) + On(screens[1..])
  }

  function Update(screens: seq<Screen>, name: string, change: Screen -> Screen): (r: seq<Screen>)
    ensures |r| == |screens|
    ensures forall i :: 0 <= i < |screens| ==> r[i] == if screens[i].name == name then change(screens[i]) else screens[i]
  {
    seq(|screens|, i requires 0 <= i < |screens| => if screens[i].name == name then change(screens[i]) else screens[i])
  }

  // ---------------------------------------------------------------- edits of one screen

  function SizedModes(modes: seq<Mode>, size: Size): seq<Mode> {
    if modes == [] then []
    else (if modes[0].width == size.width && modes[0].height == size.height then [modes[0]] else []) + SizedModes(modes[1..], size)
  }

  function FindRate(modes: seq<Mode>, rate: real): Option<Mode> {
    if modes == [] then None else if modes[0].rate == rate then Some(modes[0]) else FindRate(modes[1..], rate)
  }

  /** The mode a new size selects: with the current refresh rate where offered, else the first. */
  function ChosenMode(s: Screen, size: Size): Option<Mode> {
    var sized := SizedModes(s.modes, size);
    var kept := if CurrentMode(s).None? then None else FindRate(sized, CurrentMode(s).value.rate);
    if kept.Some? then kept else if sized == [] then None else Some(sized[0])
  }

  function Resized(s: Screen, size: Size): (r: Screen)
    ensures r == s.(mode := r.mode)
  {
    var chosen := ChosenMode(s, size);
    if chosen.None? then s else s.(mode := Some(chosen.value.id))
  }

  function SetResolution(screens: seq<Screen>, name: string, size: Size): seq<Screen> {
    Update(screens, name, (s: Screen) => Resized(s, size))
  }

  predicate Offers(s: Screen, id: string) { exists m :: m in s.modes && m.id == id }

  function SetMode(screens: seq<Screen>, name: string, id: string): seq<Screen> {
    Update(screens, name, (s: Screen) => if Offers(s, id) then s.(mode := Some(id)) else s)
  }

  function SetRotation(screens: seq<Screen>, name: string, rotation: Rotation): seq<Screen> {
    Update(screens, name, (s: Screen) => s.(rotation := rotation))
  }

  const SCALES: seq<real> := [1.0, 0.8, 0.667, 0.5]

  function SetScale(screens: seq<Screen>, name: string, scale: real): seq<Screen> {
    if scale in SCALES then Update(screens, name, (s: Screen) => s.(scale := scale)) else screens
  }

  function Move(screens: seq<Screen>, name: string, x: real, y: real): seq<Screen> {
    Update(screens, name, (s: Screen) => s.(x := x, y := y))
  }

  function WithMain(screens: seq<Screen>, name: string): (r: seq<Screen>)
    ensures |r| == |screens|
    ensures forall i :: 0 <= i < |screens| ==> r[i] == screens[i].(primary := screens[i].name == name)
  {
    seq(|screens|, i requires 0 <= i < |screens| => screens[i].(primary := screens[i].name == name))
  }

  /** One main screen, among the ones that are on. */
  function SetPrimary(screens: seq<Screen>, name: string): seq<Screen> {
    var target := Find(screens, name);
    FindIsFirst(screens, name);
    if target.None? || !screens[target.value].enabled then screens else WithMain(screens, name)
  }

  function MaxOf(start: real, values: seq<real>): real
    decreases |values|
  {
    if values == [] then start else MaxOf(if values[0] > start then values[0] else start, values[1..])
  }

  function RightEdges(screens: seq<Screen>): seq<real> {
    seq(|screens|, i requires 0 <= i < |screens| => screens[i].x + LogicalSize(screens[i]).width)
  }

  function FirstOn(screens: seq<Screen>): Option<nat> {
    if screens == [] then None
    else if screens[0].enabled then Some(0)
    else
      var i := FirstOn(screens[1..]);
      if i.None? then None else Some(i.value + 1)
  }

  lemma {:induction false} FirstOnIsOn(screens: seq<Screen>)
    ensures FirstOn(screens).Some? ==> FirstOn(screens).value < |screens| && screens[FirstOn(screens).value].enabled
    ensures FirstOn(screens).None? ==> forall j :: 0 <= j < |screens| ==> !screens[j].enabled
  {
    if screens != [] {
      FirstOnIsOn(screens[1..]);
      assert forall j :: 1 <= j < |screens| ==> screens[j] == screens[1..][j - 1];
    }
  }

  function TurnedOff(screens: seq<Screen>, name: string): seq<Screen> {
    Update(screens, name, (s: Screen) => s.(enabled := false, primary := false))
  }

  function TurnedOn(screens: seq<Screen>, name: string, right: real): seq<Screen> {
    Update(screens, name, (s: Screen) =>
      s.(enabled := true, mode := if s.modes == [] then None else Some(s.modes[0].id), x := right, y := 0.0))
  }

  /** Turns a screen on, to the right of the others, or off; the last one that is on stays on. */
  function SetEnabled(screens: seq<Screen>, name: string, enabled: bool): seq<Screen> {
    var target := Find(screens, name);
    FindIsFirst(screens, name);
    if target.None? || screens[target.value].enabled == enabled || screens[target.value].modes == [] then screens
    else if !enabled then
      if |On(screens)| == 1 then screens
      else
        var off := TurnedOff(screens, name);
        var next := FirstOn(off);
        FirstOnIsOn(off);
        if screens[target.value].primary && next.Some? then SetPrimary(off, off[next.value].name) else off
    else TurnedOn(screens, name, MaxOf(0.0, RightEdges(On(screens))))
  }

  // ---------------------------------------------------------------- geometry

  datatype Box = Box(x: real, y: real, width: real, height: real)

  function BoxOf(s: Screen): Box {
    Box(s.x, s.y, LogicalSize(s).width, LogicalSize(s).height)
  }

  /** The boxes share area and are not clones (same place and size). */
  predicate Collide(a: Box, b: Box) {
    && a != b
    && a.x < b.x + b.width && b.x < a.x + a.width && a.y < b.y + b.height && b.y < a.y + a.height
  }

  predicate Overlapping(screens: seq<Screen>) {
    exists i, j :: 0 <= i < j < |screens| && screens[i].enabled && screens[j].enabled && Collide(BoxOf(screens[i]), BoxOf(screens[j]))
  }

  function MainsOn(screens: seq<Screen>): nat {
    if screens == [] then 0
    else (if screens[0].enabled && screens[0].primary then 1 else 0) + MainsOn(screens[1..])
  }

  datatype Problem = NoScreenOn | NoMainScreen | ScreensOverlap

  /** What blocks Apply. */
  function ProblemOf(screens: seq<Screen>): Option<Problem> {
    if On(screens) == [] then Some(NoScreenOn)
    else if MainsOn(screens) != 1 then Some(NoMainScreen)
    else if Overlapping(screens) then Some(ScreensOverlap)
    else None
  }

  function MinOf(start: real, values: seq<real>): real
    decreases |values|
  {
    if values == [] then start else MinOf(if values[0] < start then values[0] else start, values[1..])
  }

  function Xs(screens: seq<Screen>): seq<real> { seq(|screens|, i requires 0 <= i < |screens| => screens[i].x) }
  function Ys(screens: seq<Screen>): seq<real> { seq(|screens|, i requires 0 <= i < |screens| => screens[i].y) }

  function Shifted(screens: seq<Screen>, left: real, top: real): (r: seq<Screen>)
    ensures |r| == |screens|
    ensures forall i :: 0 <= i < |screens| ==>
              r[i] == if screens[i].enabled then screens[i].(x := screens[i].x - left, y := screens[i].y - top) else screens[i]
  {
    seq(|screens|, i requires 0 <= i < |screens| =>
      if screens[i].enabled then screens[i].(x := screens[i].x - left, y := screens[i].y - top) else screens[i])
  }

  /** Shifts every screen that is on, so that the top-left of the desktop is 0,0. */
  function Normalize(screens: seq<Screen>): seq<Screen> {
    var on := On(screens);
    if on == [] then screens
    else Shifted(screens, MinOf(on[0].x, Xs(on)), MinOf(on[0].y, Ys(on)))
  }

  // ---------------------------------------------------------------- what every edit keeps

  predicate UniqueNames(screens: seq<Screen>) {
    forall i, j :: 0 <= i < j < |screens| ==> screens[i].name != screens[j].name
  }

  /** Only a screen that offers modes is on. */
  predicate CanBeOn(s: Screen) { s.enabled ==> s.modes != [] }

  predicate NoNegativeSize(s: Screen) {
    0.0 <= s.scale && forall m :: m in s.modes ==> 0.0 <= m.width && 0.0 <= m.height
  }

  predicate MainAt(screens: seq<Screen>, k: nat)
    requires k < |screens|
  {
    screens[k].enabled && screens[k].primary && forall j :: 0 <= j < |screens| && j != k ==> !screens[j].primary
  }

  /** Exactly one main screen, and it is on. */
  predicate OneMain(screens: seq<Screen>) {
    exists k :: 0 <= k < |screens| && MainAt(screens, k)
  }

  predicate Sound(screens: seq<Screen>) {
    && UniqueNames(screens) && OneMain(screens)
    && forall i :: 0 <= i < |screens| ==> CanBeOn(screens[i]) && NoNegativeSize(screens[i])
  }

  lemma {:induction false} OnIsExact(screens: seq<Screen>)
    ensures forall s :: s in On(screens) <==> s in screens && s.enabled
    ensures |On(screens)| <= |screens|
  {
    if screens != [] {
      OnIsExact(screens[1..]);
    }
  }

  lemma {:induction false} OneMainCounts(screens: seq<Screen>, k: nat)
    requires k < |screens| && MainAt(screens, k)
    ensures MainsOn(screens) == 1
  {
    if k == 0 {
      NoMainCounts(screens[1..]);
    } else {
      OneMainCounts(screens[1..], k - 1);
    }
  }

  lemma {:induction false} NoMainCounts(screens: seq<Screen>)
    requires forall j :: 0 <= j < |screens| ==> !screens[j].primary
    ensures MainsOn(screens) == 0
  {
    if screens != [] {
      NoMainCounts(screens[1..]);
    }
  }

  /** A sound layout can only be refused for an overlap. */
  lemma SoundHasMain(screens: seq<Screen>)
    requires Sound(screens)
    ensures ProblemOf(screens) == if Overlapping(screens) then Some(ScreensOverlap) else None
    ensures On(screens) != []
  {
    var k :| 0 <= k < |screens| && MainAt(screens, k);
    OneMainCounts(screens, k);
    OnIsExact(screens);
    assert screens[k] in On(screens);
  }

  // An edit that keeps names and mains keeps the one main screen.
  lemma SameMains(a: seq<Screen>, b: seq<Screen>)
    requires |a| == |b| && forall i :: 0 <= i < |a| ==> b[i].name == a[i].name && b[i].primary == a[i].primary
    requires forall i :: 0 <= i < |a| && a[i].enabled ==> b[i].enabled
    ensures OneMain(a) ==> OneMain(b)
    ensures UniqueNames(a) ==> UniqueNames(b)
  {
    if OneMain(a) {
      var k :| 0 <= k < |a| && MainAt(a, k);
      assert MainAt(b, k);
    }
  }

  lemma {:induction false} SizedModesOffered(modes: seq<Mode>, size: Size)
    ensures forall m :: m in SizedModes(modes, size) <==> m in modes && m.width == size.width && m.height == size.height
  {
    if modes != [] {
      SizedModesOffered(modes[1..], size);
    }
  }

  lemma {:induction false} FindRateIn(modes: seq<Mode>, rate: real)
    ensures FindRate(modes, rate).Some? ==> FindRate(modes, rate).value in modes && FindRate(modes, rate).value.rate == rate
    ensures FindRate(modes, rate).None? ==> forall m :: m in modes ==> m.rate != rate
  {
    if modes != [] {
      FindRateIn(modes[1..], rate);
    }
  }

  /** A new size is taken from the modes of that size the screen offers, at the old rate if one has it. */
  lemma ChosenModeOffered(s: Screen, size: Size)
    ensures ChosenMode(s, size).Some? <==> exists m :: m in s.modes && m.width == size.width && m.height == size.height
    ensures ChosenMode(s, size).Some? ==>
              var m := ChosenMode(s, size).value;
              && m in s.modes && m.width == size.width && m.height == size.height
              && (CurrentMode(s).Some? && m.rate != CurrentMode(s).value.rate ==>
                    forall o :: o in s.modes && o.width == size.width && o.height == size.height
                      ==> o.rate != CurrentMode(s).value.rate)
  {
    var sized := SizedModes(s.modes, size);
    SizedModesOffered(s.modes, size);
    if sized != [] {
      assert sized[0] in sized;
    }
    if CurrentMode(s).Some? {
      FindRateIn(sized, CurrentMode(s).value.rate);
    }
  }

  lemma SetPrimaryKeepsSound(screens: seq<Screen>, name: string)
    requires Sound(screens)
    ensures Sound(SetPrimary(screens, name))
  {
    FindIsFirst(screens, name);
    var n := SetPrimary(screens, name);
    if n != screens {
      var k := Find(screens, name).value;
      assert MainAt(n, k);
      forall i | 0 <= i < |n| ensures CanBeOn(n[i]) && NoNegativeSize(n[i]) {
        assert CanBeOn(screens[i]) && NoNegativeSize(screens[i]);
      }
    }
  }

  /** Edits of one screen's size, orientation, scale or place. */
  lemma ScreenEditsKeepSound(screens: seq<Screen>, name: string, size: Size, id: string, rotation: Rotation, scale: real,
                             x: real, y: real)
    requires Sound(screens)
    ensures Sound(SetResolution(screens, name, size)) && Sound(SetMode(screens, name, id))
    ensures Sound(SetRotation(screens, name, rotation)) && Sound(SetScale(screens, name, scale))
    ensures Sound(Move(screens, name, x, y))
  {
    ModeEditsKeepSound(screens, name, size, id);
    TurnAndScaleKeepSound(screens, name, rotation, scale);
    hide SetResolution, SetMode, SetRotation, SetScale;
    PlainUpdateKeepsSound(screens, Move(screens, name, x, y));
  }

  lemma ModeEditsKeepSound(screens: seq<Screen>, name: string, size: Size, id: string)
    requires Sound(screens)
    ensures Sound(SetResolution(screens, name, size)) && Sound(SetMode(screens, name, id))
  {
    PlainUpdateKeepsSound(screens, SetResolution(screens, name, size));
    PlainUpdateKeepsSound(screens, SetMode(screens, name, id));
  }

  lemma TurnAndScaleKeepSound(screens: seq<Screen>, name: string, rotation: Rotation, scale: real)
    requires Sound(screens)
    ensures Sound(SetRotation(screens, name, rotation)) && Sound(SetScale(screens, name, scale))
  {
    PlainUpdateKeepsSound(screens, SetRotation(screens, name, rotation));
    PlainUpdateKeepsSound(screens, SetScale(screens, name, scale));
  }

  lemma PlainUpdateKeepsSound(a: seq<Screen>, b: seq<Screen>)
    requires Sound(a) && |a| == |b|
    requires forall i :: 0 <= i < |a| ==>
               && b[i].name == a[i].name && b[i].primary == a[i].primary && b[i].enabled == a[i].enabled
               && b[i].modes == a[i].modes && 0.0 <= b[i].scale
    ensures Sound(b)
  {
    SameMains(a, b);
    forall i | 0 <= i < |b| ensures CanBeOn(b[i]) && NoNegativeSize(b[i]) {
      assert CanBeOn(a[i]) && NoNegativeSize(a[i]);
    }
  }

  // ---------------------------------------------------------------- on and off

  lemma {:induction false} OnlyOneOn(screens: seq<Screen>, k: nat)
    requires k < |screens| && screens[k].enabled && forall j :: 0 <= j < |screens| && j != k ==> !screens[j].enabled
    ensures |On(screens)| == 1
  {
    if k == 0 {
      NoneOn(screens[1..]);
    } else {
      OnlyOneOn(screens[1..], k - 1);
    }
  }

  lemma {:induction false} NoneOn(screens: seq<Screen>)
    requires forall j :: 0 <= j < |screens| ==> !screens[j].enabled
    ensures On(screens) == []
  {
    if screens != [] {
      NoneOn(screens[1..]);
    }
  }

  lemma TurningOffKeepsSound(screens: seq<Screen>, name: string, k: nat)
    requires Sound(screens) && k < |screens| && screens[k].name == name && screens[k].enabled && |On(screens)| != 1
    ensures var off := TurnedOff(screens, name);
            && UniqueNames(off) && FirstOn(off).Some?
            && (forall i :: 0 <= i < |off| ==> CanBeOn(off[i]) && NoNegativeSize(off[i]))
            && (!screens[k].primary ==> OneMain(off))
  {
    TurnedOffScreens(screens, name);
    TurningOffLeavesOneOn(screens, name, k);
    if !screens[k].primary {
      var m :| 0 <= m < |screens| && MainAt(screens, m);
      assert MainAt(TurnedOff(screens, name), m);
    }
    hide FirstOn, CanBeOn, NoNegativeSize, UniqueNames;
  }

  lemma TurnedOffScreens(screens: seq<Screen>, name: string)
    requires Sound(screens)
    ensures var off := TurnedOff(screens, name);
            UniqueNames(off) && forall i :: 0 <= i < |off| ==> CanBeOn(off[i]) && NoNegativeSize(off[i])
  {
    var off := TurnedOff(screens, name);
    forall i | 0 <= i < |off| ensures CanBeOn(off[i]) && NoNegativeSize(off[i]) {
      assert CanBeOn(screens[i]) && NoNegativeSize(screens[i]);
    }
  }

  lemma TurningOffLeavesOneOn(screens: seq<Screen>, name: string, k: nat)
    requires Sound(screens) && k < |screens| && screens[k].name == name && screens[k].enabled && |On(screens)| != 1
    ensures FirstOn(TurnedOff(screens, name)).Some?
  {
    var off := TurnedOff(screens, name);
    FirstOnIsOn(off);
    if forall j :: 0 <= j < |screens| && j != k ==> !screens[j].enabled {
      OnlyOneOn(screens, k);
    } else {
      var j :| 0 <= j < |screens| && j != k && screens[j].enabled;
      assert off[j] == screens[j];
    }
  }

  lemma MainOfOthers(off: seq<Screen>, next: nat)
    requires UniqueNames(off) && next < |off| && off[next].enabled
    requires forall i :: 0 <= i < |off| ==> CanBeOn(off[i]) && NoNegativeSize(off[i])
    ensures Sound(SetPrimary(off, off[next].name))
  {
    var n := SetPrimary(off, off[next].name);
    FindIsFirst(off, off[next].name);
    assert MainAt(n, next);
    forall i | 0 <= i < |n| ensures CanBeOn(n[i]) && NoNegativeSize(n[i]) {
      assert CanBeOn(off[i]) && NoNegativeSize(off[i]);
    }
  }

  lemma TurningOnKeepsSound(screens: seq<Screen>, name: string, right: real, k: nat)
    requires Sound(screens) && k < |screens| && screens[k].name == name && screens[k].modes != []
    ensures Sound(TurnedOn(screens, name, right))
  {
    var n := TurnedOn(screens, name, right);
    SameMains(screens, n);
    forall i | 0 <= i < |n| ensures CanBeOn(n[i]) && NoNegativeSize(n[i]) {
      assert CanBeOn(screens[i]) && NoNegativeSize(screens[i]);
    }
  }

  /** Turning any screen on or off keeps a screen on and exactly one main screen. */
  lemma SetEnabledKeepsSound(screens: seq<Screen>, name: string, enabled: bool)
    requires Sound(screens)
    ensures Sound(SetEnabled(screens, name, enabled))
  {
    FindIsFirst(screens, name);
    var n := SetEnabled(screens, name, enabled);
    if n != screens {
      var k := Find(screens, name).value;
      if enabled {
        TurningOnKeepsSound(screens, name, MaxOf(0.0, RightEdges(On(screens))), k);
      } else {
        TurningOffKeepsSound(screens, name, k);
        var off := TurnedOff(screens, name);
        FirstOnIsOn(off);
        MainOfOthers(off, FirstOn(off).value);
      }
    }
  }

  lemma {:induction false} MaxIsAbove(start: real, values: seq<real>)
    ensures start <= MaxOf(start, values) && forall v :: v in values ==> v <= MaxOf(start, values)
    decreases |values|
  {
    if values != [] {
      MaxIsAbove(if values[0] > start then values[0] else start, values[1..]);
      assert values == [values[0]] + values[1..];
    }
  }

  lemma RightOfOthers(screens: seq<Screen>, i: nat)
    requires i < |screens| && screens[i].enabled
    ensures screens[i].x + LogicalSize(screens[i]).width <= MaxOf(0.0, RightEdges(On(screens)))
  {
    OnIsExact(screens);
    assert screens[i] in On(screens);
    var on := On(screens);
    var k :| 0 <= k < |on| && on[k] == screens[i];
    hide LogicalSize, On;
    MaxIsAbove(0.0, RightEdges(on));
    assert RightEdges(on)[k] in RightEdges(on);
  }

  /** Turning a screen on neither creates nor removes an overlap. */
  lemma EnablingCreatesNoOverlap(screens: seq<Screen>, name: string)
    requires UniqueNames(screens)
    ensures Overlapping(SetEnabled(screens, name, true)) <==> Overlapping(screens)
  {
    hide LogicalSize, On;
    FindIsFirst(screens, name);
    var n := SetEnabled(screens, name, true);
    if n != screens {
      var k := Find(screens, name).value;
      assert forall i :: 0 <= i < |n| && i != k ==> n[i] == screens[i];
      forall i | 0 <= i < |n| && i != k && n[i].enabled
        ensures !Collide(BoxOf(n[i]), BoxOf(n[k])) && !Collide(BoxOf(n[k]), BoxOf(n[i]))
      {
        RightOfOthers(screens, i);
      }
      OverlapAsides(screens, n, k);
    }
  }

  lemma OverlapAsides(a: seq<Screen>, b: seq<Screen>, k: nat)
    requires |a| == |b| && k < |a| && !a[k].enabled && forall i :: 0 <= i < |b| && i != k ==> b[i] == a[i]
    requires forall i :: 0 <= i < |b| && i != k && b[i].enabled ==> !Collide(BoxOf(b[i]), BoxOf(b[k])) && !Collide(BoxOf(b[k]), BoxOf(b[i]))
    ensures Overlapping(b) <==> Overlapping(a)
  {
    hide LogicalSize;
    if Overlapping(b) {
      var i, j :| 0 <= i < j < |b| && b[i].enabled && b[j].enabled && Collide(BoxOf(b[i]), BoxOf(b[j]));
      assert i != k && j != k;
      assert Collide(BoxOf(a[i]), BoxOf(a[j]));
    }
    if Overlapping(a) {
      var i, j :| 0 <= i < j < |a| && a[i].enabled && a[j].enabled && Collide(BoxOf(a[i]), BoxOf(a[j]));
      assert Collide(BoxOf(b[i]), BoxOf(b[j]));
    }
  }

  // ---------------------------------------------------------------- normalize

  lemma {:induction false} MinIsBelow(start: real, values: seq<real>)
    ensures MinOf(start, values) <= start && forall v :: v in values ==> MinOf(start, values) <= v
    ensures MinOf(start, values) == start || MinOf(start, values) in values
    decreases |values|
  {
    if values != [] {
      MinIsBelow(if values[0] < start then values[0] else start, values[1..]);
      assert values == [values[0]] + values[1..];
    }
  }

  predicate AtOrigin(screens: seq<Screen>) {
    && (forall i :: 0 <= i < |screens| && screens[i].enabled ==> 0.0 <= screens[i].x && 0.0 <= screens[i].y)
    && (exists i :: 0 <= i < |screens| && screens[i].enabled && screens[i].x == 0.0)
    && (exists i :: 0 <= i < |screens| && screens[i].enabled && screens[i].y == 0.0)
  }

  /** The smallest coordinates of the screens that are on. */
  lemma CornerOf(screens: seq<Screen>)
    requires On(screens) != []
    ensures var on := On(screens); var left, top := MinOf(on[0].x, Xs(on)), MinOf(on[0].y, Ys(on));
            && (forall i :: 0 <= i < |screens| && screens[i].enabled ==> left <= screens[i].x && top <= screens[i].y)
            && (exists i :: 0 <= i < |screens| && screens[i].enabled && screens[i].x == left)
            && (exists i :: 0 <= i < |screens| && screens[i].enabled && screens[i].y == top)
  {
    hide MinOf, On;
    var on := On(screens);
    OnIsExact(screens);
    MinIsBelow(on[0].x, Xs(on));
    MinIsBelow(on[0].y, Ys(on));
    forall i | 0 <= i < |screens| && screens[i].enabled
      ensures MinOf(on[0].x, Xs(on)) <= screens[i].x && MinOf(on[0].y, Ys(on)) <= screens[i].y
    {
      var k :| 0 <= k < |on| && on[k] == screens[i];
      assert Xs(on)[k] in Xs(on) && Ys(on)[k] in Ys(on);
    }
    assert Xs(on)[0] in Xs(on) && Ys(on)[0] in Ys(on);
    var a :| 0 <= a < |on| && Xs(on)[a] == MinOf(on[0].x, Xs(on));
    var b :| 0 <= b < |on| && Ys(on)[b] == MinOf(on[0].y, Ys(on));
    assert on[a] in screens && on[b] in screens;
  }

  lemma ShiftedAtOrigin(screens: seq<Screen>, left: real, top: real)
    requires forall i :: 0 <= i < |screens| && screens[i].enabled ==> left <= screens[i].x && top <= screens[i].y
    requires exists i :: 0 <= i < |screens| && screens[i].enabled && screens[i].x == left
    requires exists i :: 0 <= i < |screens| && screens[i].enabled && screens[i].y == top
    ensures AtOrigin(Shifted(screens, left, top)) && On(Shifted(screens, left, top)) != []
  {
    var n := Shifted(screens, left, top);
    hide Shifted, On;
    var i :| 0 <= i < |screens| && screens[i].enabled && screens[i].x == left;
    var j :| 0 <= j < |screens| && screens[j].enabled && screens[j].y == top;
    assert n[i].enabled && n[i].x == 0.0 && n[j].enabled && n[j].y == 0.0;
    OnIsExact(n);
    assert n[i] in On(n);
  }

  lemma NormalizedAtOrigin(screens: seq<Screen>)
    requires On(screens) != []
    ensures AtOrigin(Normalize(screens)) && On(Normalize(screens)) != []
  {
    CornerOf(screens);
    var on := On(screens);
    hide MinOf, On, Xs, Ys, Shifted, AtOrigin;
    ShiftedAtOrigin(screens, MinOf(on[0].x, Xs(on)), MinOf(on[0].y, Ys(on)));
  }

  lemma AtOriginStays(screens: seq<Screen>)
    requires AtOrigin(screens) && On(screens) != []
    ensures Normalize(screens) == screens
  {
    CornerOf(screens);
    hide MinOf, On;
    var on := On(screens);
    assert MinOf(on[0].x, Xs(on)) == 0.0 && MinOf(on[0].y, Ys(on)) == 0.0;
  }

  /** Normalizing moves the desktop to 0,0 once and for all. */
  lemma NormalizeIsIdempotent(screens: seq<Screen>)
    ensures Normalize(Normalize(screens)) == Normalize(screens)
    ensures On(screens) != [] ==> AtOrigin(Normalize(screens))
  {
    if On(screens) != [] {
      NormalizedAtOrigin(screens);
      AtOriginStays(Normalize(screens));
    }
  }

  lemma SameSize(a: Screen, b: Screen)
    requires a.mode == b.mode && a.modes == b.modes && a.rotation == b.rotation && a.scale == b.scale
    ensures LogicalSize(a) == LogicalSize(b)
  {
    hide Scaled;
    assert CurrentMode(a) == CurrentMode(b);
  }

  lemma ShiftedCollide(a: Screen, b: Screen, left: real, top: real)
    ensures var c, d := a.(x := a.x - left, y := a.y - top), b.(x := b.x - left, y := b.y - top);
            Collide(BoxOf(c), BoxOf(d)) <==> Collide(BoxOf(a), BoxOf(b))
  {
    SameSize(a, a.(x := a.x - left, y := a.y - top));
    SameSize(b, b.(x := b.x - left, y := b.y - top));
    hide LogicalSize;
  }

  /** Normalizing keeps every overlap and every gap. */
  lemma NormalizeKeepsOverlap(screens: seq<Screen>)
    ensures Overlapping(Normalize(screens)) <==> Overlapping(screens)
  {
    hide MinOf, On, Collide, BoxOf;
    var on := On(screens);
    if on != [] {
      var left, top := MinOf(on[0].x, Xs(on)), MinOf(on[0].y, Ys(on));
      var n := Shifted(screens, left, top);
        forall i, j | 0 <= i < j < |screens| && screens[i].enabled && screens[j].enabled
        ensures Collide(BoxOf(n[i]), BoxOf(n[j])) <==> Collide(BoxOf(screens[i]), BoxOf(screens[j]))
      {
        ShiftedCollide(screens[i], screens[j], left, top);
      }
    }
  }

  lemma NormalizeKeepsSound(screens: seq<Screen>)
    requires Sound(screens)
    ensures Sound(Normalize(screens))
  {
    hide MinOf, On;
    if Normalize(screens) != screens {
      PlainUpdateKeepsSound(screens, Normalize(screens));
    }
  }

  // ---------------------------------------------------------------- single

  function SingleOf(s: Screen, name: string): Screen {
    if s.name == name then
      s.(enabled := true, primary := true, x := 0.0, y := 0.0,
         mode := if s.mode.Some? then s.mode else if s.modes == [] then None else Some(s.modes[0].id))
    else s.(enabled := false, primary := false)
  }

  function OnlyOne(screens: seq<Screen>, name: string): (r: seq<Screen>)
    ensures |r| == |screens| && forall i :: 0 <= i < |screens| ==> r[i] == SingleOf(screens[i], name)
  {
    seq(|screens|, i requires 0 <= i < |screens| => SingleOf(screens[i], name))
  }

  /** Single screen: only `name` on, as the main screen at 0,0. */
  function Single(screens: seq<Screen>, name: string): seq<Screen> {
    var target := Find(screens, name);
    FindIsFirst(screens, name);
    if target.None? || screens[target.value].modes == [] then screens else OnlyOne(screens, name)
  }

  /** Single on a screen that offers modes can always be applied: that screen alone is on, and main. */
  lemma SingleHasNoProblem(screens: seq<Screen>, name: string, k: nat)
    requires UniqueNames(screens) && k < |screens| && screens[k].name == name && screens[k].modes != []
    ensures var n := Single(screens, name);
            ProblemOf(n) == None && On(n) == [n[k]] && MainAt(n, k) && n[k].x == 0.0 && n[k].y == 0.0
  {
    FindIsFirst(screens, name);
    var n := Single(screens, name);
    assert MainAt(n, k);
    OnlyOneOn(n, k);
    OneMainCounts(n, k);
    OnIsExact(n);
    assert n[k] in On(n);
  }

  lemma SingleKeepsSound(screens: seq<Screen>, name: string)
    requires Sound(screens)
    ensures Sound(Single(screens, name))
  {
    FindIsFirst(screens, name);
    var n := Single(screens, name);
    if n != screens {
      assert MainAt(n, Find(screens, name).value);
      forall i | 0 <= i < |n| ensures CanBeOn(n[i]) && NoNegativeSize(n[i]) {
        assert CanBeOn(screens[i]) && NoNegativeSize(screens[i]);
      }
    }
  }

  // ---------------------------------------------------------------- join

  /** The screens that can be turned on. */
  function Manageable(screens: seq<Screen>): seq<Screen> {
    if screens == [] then [] else (if screens[0].modes != [] then [screens[0]] else []) + Manageable(screens[1..])
  }

  function EnableAll(joined: seq<Screen>, todo: seq<Screen>): seq<Screen>
    decreases |todo|
  {
    if todo == [] then joined
    else EnableAll(if todo[0].enabled then joined else SetEnabled(joined, todo[0].name, true), todo[1..])
  }

  /** The comparison of two screens: left to right, top to bottom, then by the locale's order of
      their names, of which only a rank is known. */
  predicate NotAfter(a: Screen, b: Screen, rank: string -> int) {
    a.x < b.x || (a.x == b.x && (a.y < b.y || (a.y == b.y && rank(a.name) <= rank(b.name))))
  }

  function Insert(sorted: seq<Screen>, s: Screen, rank: string -> int): seq<Screen> {
    if sorted == [] || NotAfter(sorted[|sorted| - 1], s, rank) then sorted + [s]
    else Insert(sorted[..|sorted| - 1], s, rank) + [sorted[|sorted| - 1]]
  }

  function SortScreens(screens: seq<Screen>, rank: string -> int): seq<Screen> {
    if screens == [] then []
    else Insert(SortScreens(screens[..|screens| - 1], rank), screens[|screens| - 1], rank)
  }

  function WidthIn(screens: seq<Screen>, s: Screen): real {
    var i := Find(screens, s.name);
    FindIsFirst(screens, s.name);
    LogicalSize(if i.Some? then screens[i.value] else s).width
  }

  function PlaceAll(joined: seq<Screen>, order: seq<Screen>, x: real): seq<Screen>
    decreases |order|
  {
    if order == [] then joined
    else
      var placed := Move(joined, order[0].name, x, 0.0);
      PlaceAll(placed, order[1..], x + WidthIn(placed, order[0]))
  }

  /** Join: every screen on, side by side from left to right in their current order. */
  function Joined(screens: seq<Screen>, rank: string -> int): seq<Screen> {
    var enabled := EnableAll(screens, Manageable(screens));
    PlaceAll(enabled, SortScreens(On(enabled), rank), 0.0)
  }

  method Join(screens: seq<Screen>, rank: string -> int) returns (joined: seq<Screen>)
    ensures joined == Joined(screens, rank)
  {
    hide SetEnabled, Move, SortScreens, On, Manageable, WidthIn;
    joined := screens;
    var todo := Manageable(screens);
    for i := 0 to |todo|
      invariant EnableAll(joined, todo[i..]) == EnableAll(screens, todo)
    {
      assert todo[i..][0] == todo[i] && todo[i..][1..] == todo[i + 1..];
      if !todo[i].enabled {
        joined := SetEnabled(joined, todo[i].name, true);
      }
    }
    var order := SortScreens(On(joined), rank);
    var x := 0.0;
    for i := 0 to |order|
      invariant PlaceAll(joined, order[i..], x) == Joined(screens, rank)
    {
      assert order[i..][0] == order[i] && order[i..][1..] == order[i + 1..];
      joined := Move(joined, order[i].name, x, 0.0);
      x := x + WidthIn(joined, order[i]);
    }
  }

  lemma {:induction false} ManageableIsExact(screens: seq<Screen>)
    ensures forall s :: s in Manageable(screens) <==> s in screens && s.modes != []
    ensures UniqueNames(screens) ==> UniqueNames(Manageable(screens))
  {
    if screens != [] {
      ManageableIsExact(screens[1..]);
      var rest := Manageable(screens[1..]);
      if UniqueNames(screens) {
        forall j | 0 <= j < |rest| ensures rest[j].name != screens[0].name {
          assert rest[j] in screens[1..];
          var i :| 0 <= i < |screens[1..]| && screens[1..][i] == rest[j];
          assert screens[i + 1] == rest[j];
        }
      }
    }
  }

  lemma {:induction false} OnKeepsUnique(screens: seq<Screen>)
    requires UniqueNames(screens)
    ensures UniqueNames(On(screens))
  {
    if screens != [] {
      OnKeepsUnique(screens[1..]);
      OnIsExact(screens[1..]);
      var rest := On(screens[1..]);
      forall j | 0 <= j < |rest| ensures rest[j].name != screens[0].name {
        assert rest[j] in screens[1..];
        var i :| 0 <= i < |screens[1..]| && screens[1..][i] == rest[j];
        assert screens[i + 1] == rest[j];
      }
    }
  }

  lemma {:induction false} InsertKeeps(sorted: seq<Screen>, s: Screen, rank: string -> int)
    ensures multiset(Insert(sorted, s, rank)) == multiset(sorted) + multiset{s}
  {
    if sorted != [] && !NotAfter(sorted[|sorted| - 1], s, rank) {
      InsertKeeps(sorted[..|sorted| - 1], s, rank);
      assert sorted == sorted[..|sorted| - 1] + [sorted[|sorted| - 1]];
    }
  }

  predicate InOrder(order: seq<Screen>, rank: string -> int) {
    forall i, j :: 0 <= i < j < |order| ==> NotAfter(order[i], order[j], rank)
  }

  lemma {:induction false} InsertOrders(sorted: seq<Screen>, s: Screen, rank: string -> int)
    requires InOrder(sorted, rank)
    ensures InOrder(Insert(sorted, s, rank), rank)
  {
    if sorted != [] && !NotAfter(sorted[|sorted| - 1], s, rank) {
      var front, last := sorted[..|sorted| - 1], sorted[|sorted| - 1];
      InsertOrders(front, s, rank);
      InsertKeeps(front, s, rank);
      var inserted := Insert(front, s, rank);
      forall i | 0 <= i < |inserted| ensures NotAfter(inserted[i], last, rank) {
        assert inserted[i] in multiset(inserted);
        if inserted[i] != s {
          assert inserted[i] in front;
        }
      }
    }
  }

  lemma {:induction false} SortScreensSorts(screens: seq<Screen>, rank: string -> int)
    ensures InOrder(SortScreens(screens, rank), rank)
    ensures multiset(SortScreens(screens, rank)) == multiset(screens)
  {
    if screens != [] {
      var front, last := screens[..|screens| - 1], screens[|screens| - 1];
      assert screens == front + [last];
      SortScreensSorts(front, rank);
      InsertOrders(SortScreens(front, rank), last, rank);
      InsertKeeps(SortScreens(front, rank), last, rank);
    }
  }

  /** Only screens that were off differ, in being on, their mode and their place. */
  predicate Grown(a: seq<Screen>, b: seq<Screen>) {
    && |a| == |b|
    && forall i :: 0 <= i < |a| ==>
         && b[i] == a[i].(enabled := b[i].enabled, mode := b[i].mode, x := b[i].x, y := b[i].y)
         && (a[i].enabled ==> b[i] == a[i])
  }

  lemma EnableGrows(screens: seq<Screen>, name: string)
    requires UniqueNames(screens)
    ensures Grown(screens, SetEnabled(screens, name, true))
    ensures var n := SetEnabled(screens, name, true);
            forall i :: 0 <= i < |n| && n[i].name == name && n[i].modes != [] ==> n[i].enabled
  {
    FindIsFirst(screens, name);
    hide On, MaxOf, RightEdges;
    var n := SetEnabled(screens, name, true);
    forall i | 0 <= i < |n| && n[i].name == name ensures Find(screens, name) == Some(i) {
      var k := Find(screens, name);
      assert k.Some?;
    }
  }

  lemma {:induction false} EnableAllGrows(screens: seq<Screen>, todo: seq<Screen>)
    requires Sound(screens)
    requires forall i, t :: 0 <= i < |screens| && t in todo && screens[i].name == t.name && t.enabled ==> screens[i].enabled
    ensures var n := EnableAll(screens, todo);
            && Sound(n) && Grown(screens, n)
            && forall i, t :: 0 <= i < |n| && t in todo && n[i].name == t.name && n[i].modes != [] ==> n[i].enabled
    decreases |todo|
  {
    hide SetEnabled, On;
    if todo != [] {
      var next := if todo[0].enabled then screens else SetEnabled(screens, todo[0].name, true);
      EnableGrows(screens, todo[0].name);
      SetEnabledKeepsSound(screens, todo[0].name, true);
      hide Sound;
      EnableAllGrows(next, todo[1..]);
      assert todo == [todo[0]] + todo[1..];
    }
  }

  /** Where `PlaceAll` puts a screen. */
  function PlaceOf(order: seq<Screen>, x: real, name: string): Option<real>
    decreases |order|
  {
    if order == [] then None
    else if order[0].name == name then Some(x)
    else PlaceOf(order[1..], x + LogicalSize(order[0]).width, name)
  }

  predicate SameSizes(screens: seq<Screen>, order: seq<Screen>) {
    forall i, t :: 0 <= i < |screens| && t in order && screens[i].name == t.name ==> LogicalSize(screens[i]) == LogicalSize(t)
  }

  function Placed(s: Screen, at: Option<real>): Screen {
    if at.None? then s else s.(x := at.value, y := 0.0)
  }

  lemma MoveKeepsSizes(screens: seq<Screen>, name: string, x: real, order: seq<Screen>)
    requires SameSizes(screens, order)
    ensures SameSizes(Move(screens, name, x, 0.0), order)
  {
    var n := Move(screens, name, x, 0.0);
    forall i, t | 0 <= i < |n| && t in order && n[i].name == t.name ensures LogicalSize(n[i]) == LogicalSize(t) {
      SameSize(screens[i], n[i]);
      hide LogicalSize;
    }
  }

  lemma WidthOfFirst(screens: seq<Screen>, order: seq<Screen>)
    requires SameSizes(screens, order) && order != []
    ensures WidthIn(screens, order[0]) == LogicalSize(order[0]).width
  {
    FindIsFirst(screens, order[0].name);
    hide LogicalSize;
  }

  lemma {:induction false} PlaceAllPlaces(screens: seq<Screen>, order: seq<Screen>, x: real)
    requires UniqueNames(order) && SameSizes(screens, order)
    ensures var n := PlaceAll(screens, order, x);
            |n| == |screens| && forall i :: 0 <= i < |n| ==> n[i] == Placed(screens[i], PlaceOf(order, x, screens[i].name))
    decreases |order|
  {
    hide LogicalSize, WidthIn;
    if order != [] {
      var first := Move(screens, order[0].name, x, 0.0);
      MoveKeepsSizes(screens, order[0].name, x, order);
      WidthOfFirst(first, order);
      PlaceAllPlaces(first, order[1..], x + WidthIn(first, order[0]));
      NotPlacedAgain(order, x + LogicalSize(order[0]).width);
      hide Move, PlaceAll;
      assert forall i :: 0 <= i < |first| ==> first[i] == if screens[i].name == order[0].name then screens[i].(x := x, y := 0.0) else screens[i] by {
        MoveAt(screens, order[0].name, x);
      }
    }
  }

  lemma MoveAt(screens: seq<Screen>, name: string, x: real)
    ensures var n := Move(screens, name, x, 0.0);
            |n| == |screens| && forall i :: 0 <= i < |n| ==> n[i] == if screens[i].name == name then screens[i].(x := x, y := 0.0) else screens[i]
  {
  }

  lemma {:induction false} NotPlaced(order: seq<Screen>, x: real, name: string)
    requires forall j :: 0 <= j < |order| ==> order[j].name != name
    ensures PlaceOf(order, x, name) == None
    decreases |order|
  {
    if order != [] {
      NotPlaced(order[1..], x + LogicalSize(order[0]).width, name);
    }
  }

  lemma NotPlacedAgain(order: seq<Screen>, x: real)
    requires UniqueNames(order) && order != []
    ensures PlaceOf(order[1..], x, order[0].name) == None
  {
    NotPlaced(order[1..], x, order[0].name);
  }

  lemma WidthNotNegative(s: Screen)
    requires NoNegativeSize(s)
    ensures 0.0 <= LogicalSize(s).width && 0.0 <= LogicalSize(s).height
  {
    if s.mode.Some? {
      FindModeIn(s.modes, s.mode.value);
    }
    var mode := CurrentMode(s);
    if mode.Some? {
      ScaledNotNegative(mode.value.width, s.scale);
      ScaledNotNegative(mode.value.height, s.scale);
    }
    hide Scaled;
  }

  lemma ScaledNotNegative(pixels: real, scale: real)
    requires 0.0 <= pixels && 0.0 <= scale
    ensures 0.0 <= Scaled(pixels, scale)
  {
    assert 0.0 <= pixels * scale;
  }

  lemma {:induction false} FindModeIn(modes: seq<Mode>, id: string)
    ensures FindMode(modes, id).Some? ==> FindMode(modes, id).value in modes && FindMode(modes, id).value.id == id
    ensures FindMode(modes, id).None? ==> forall m :: m in modes ==> m.id != id
  {
    if modes != [] {
      FindModeIn(modes[1..], id);
    }
  }

  /** Screens placed in order do not share any column. */
  lemma {:induction false} PlacesApart(order: seq<Screen>, x: real, p: nat, q: nat)
    requires UniqueNames(order) && p < q < |order|
    requires forall s :: s in order ==> 0.0 <= LogicalSize(s).width
    ensures PlaceOf(order, x, order[p].name).Some? && PlaceOf(order, x, order[q].name).Some?
    ensures PlaceOf(order, x, order[p].name).value + LogicalSize(order[p]).width <= PlaceOf(order, x, order[q].name).value
    decreases |order|
  {
    hide LogicalSize;
    var next := x + LogicalSize(order[0]).width;
    if p > 0 {
      PlacesApart(order[1..], next, p - 1, q - 1);
    } else {
      PlacedFrom(order[1..], next, q - 1);
    }
  }

  lemma {:induction false} PlacedFrom(order: seq<Screen>, x: real, q: nat)
    requires UniqueNames(order) && q < |order|
    requires forall s :: s in order ==> 0.0 <= LogicalSize(s).width
    ensures PlaceOf(order, x, order[q].name).Some? && x <= PlaceOf(order, x, order[q].name).value
    decreases |order|
  {
    hide LogicalSize;
    if q > 0 {
      assert order[0] in order;
      PlacedFrom(order[1..], x + LogicalSize(order[0]).width, q - 1);
    }
  }

  /** What `Join` starts from: every manageable screen on. */
  function Enabled(screens: seq<Screen>): seq<Screen> { EnableAll(screens, Manageable(screens)) }

  lemma EnabledIsGrown(screens: seq<Screen>)
    requires Sound(screens)
    ensures Sound(Enabled(screens)) && Grown(screens, Enabled(screens))
    ensures forall i :: 0 <= i < |screens| ==> (Enabled(screens)[i].enabled <==> screens[i].modes != [])
  {
    ManageableIsExact(screens);
    var todo := Manageable(screens);
    hide Manageable;
    forall i, t | 0 <= i < |screens| && t in todo && screens[i].name == t.name && t.enabled ensures screens[i].enabled {
      assert t in screens;
    }
    EnableAllGrows(screens, todo);
    var n := Enabled(screens);
    hide EnableAll;
    forall i | 0 <= i < |screens| ensures n[i].enabled <==> screens[i].modes != [] {
      assert CanBeOn(n[i]);
      if screens[i].modes != [] {
        assert screens[i] in todo;
      }
    }
  }

  /** The order `Join` uses holds every enabled screen once. */
  lemma JoinOrder(enabled: seq<Screen>, rank: string -> int)
    requires Sound(enabled)
    ensures var order := SortScreens(On(enabled), rank);
            && UniqueNames(order) && InOrder(order, rank)
            && (forall s :: s in order <==> s in enabled && s.enabled)
            && SameSizes(enabled, order)
            && (forall s :: s in order ==> 0.0 <= LogicalSize(s).width)
  {
    var on, order := On(enabled), SortScreens(On(enabled), rank);
    OnIsExact(enabled);
    OnKeepsUnique(enabled);
    SortScreensSorts(on, rank);
    hide SortScreens, On, LogicalSize;
    PermutedUnique(on, order);
    forall s ensures s in order <==> s in enabled && s.enabled {
      assert s in order <==> s in multiset(order);
    }
    forall s | s in order ensures 0.0 <= LogicalSize(s).width {
      var i :| 0 <= i < |enabled| && enabled[i] == s;
      WidthNotNegative(enabled[i]);
    }
  }

  lemma PermutedUnique(a: seq<Screen>, b: seq<Screen>)
    requires UniqueNames(a) && multiset(a) == multiset(b)
    ensures UniqueNames(b)
  {
    forall i, j | 0 <= i < j < |b| ensures b[i].name != b[j].name {
      assert b[i] in multiset(a) && b[j] in multiset(a);
      var p :| 0 <= p < |a| && a[p] == b[i];
      var q :| 0 <= q < |a| && a[q] == b[j];
      if p == q {
        TwiceIn(b, i, j);
        OnceIn(a, p);
      }
    }
  }

  lemma TwiceIn(s: seq<Screen>, i: nat, j: nat)
    requires i < j < |s| && s[i] == s[j]
    ensures multiset(s)[s[i]] >= 2
  {
    assert s == s[..j] + [s[j]] + s[j + 1..];
    assert s[i] == s[..j][i];
    assert s[i] in multiset(s[..j]);
  }

  lemma OnceIn(s: seq<Screen>, p: nat)
    requires UniqueNames(s) && p < |s|
    ensures multiset(s)[s[p]] == 1
  {
    assert s == s[..p] + [s[p]] + s[p + 1..];
    assert s[p] !in s[..p] && s[p] !in s[p + 1..];
  }

  /** A screen of the joined layout, by its place in the order. */
  lemma JoinedAt(screens: seq<Screen>, rank: string -> int, i: nat)
    requires Sound(screens) && i < |screens|
    ensures var enabled := Enabled(screens);
            && |Joined(screens, rank)| == |screens| == |enabled|
            && Joined(screens, rank)[i]
                 == Placed(enabled[i], PlaceOf(SortScreens(On(enabled), rank), 0.0, enabled[i].name))
  {
    EnabledIsGrown(screens);
    JoinOrder(Enabled(screens), rank);
    hide EnableAll, SortScreens, On, SameSizes, Sound;
    PlaceAllPlaces(Enabled(screens), SortScreens(On(Enabled(screens)), rank), 0.0);
    hide PlaceAll, PlaceOf;
  }

  /** Of two screens that are on, the one not after the other keeps its side, clear of it. */
  lemma JoinKeepsOrder(screens: seq<Screen>, rank: string -> int, i: nat, j: nat)
    requires Sound(screens) && i < |screens| && j < |screens| && i != j
    requires screens[i].modes != [] && screens[j].modes != []
    ensures var n := Joined(screens, rank); |n| == |screens|
    ensures var n := Joined(screens, rank);
            && n[i].y == 0.0 && n[j].y == 0.0
            && (n[i].x + LogicalSize(n[i]).width <= n[j].x || n[j].x + LogicalSize(n[j]).width <= n[i].x)
    ensures var n, e := Joined(screens, rank), Enabled(screens);
            && |e| == |screens|
            && (!NotAfter(e[j], e[i], rank) ==> n[i].x + LogicalSize(n[i]).width <= n[j].x)
  {
    JoinedAt(screens, rank, i);
    JoinedAt(screens, rank, j);
    EnabledIsGrown(screens);
    var e := Enabled(screens);
    JoinOrder(e, rank);
    var order, n := SortScreens(On(e), rank), Joined(screens, rank);
    assert e[i].enabled && e[j].enabled;
    assert e[i] in order && e[j] in order;
    assert e[i].name != e[j].name;
    hide Joined, Enabled, SortScreens, On, LogicalSize, Sound, NotAfter, SameSizes;
    var p :| 0 <= p < |order| && order[p] == e[i];
    var q :| 0 <= q < |order| && order[q] == e[j];
    assert p != q;
    SameSize(e[i], n[i]);
    SameSize(e[j], n[j]);
    if p < q {
      PlacesApart(order, 0.0, p, q);
    } else {
      PlacesApart(order, 0.0, q, p);
      assert NotAfter(order[q], order[p], rank);
    }
    hide PlaceOf;
  }

  lemma JoinKeepsSound(screens: seq<Screen>, rank: string -> int)
    requires Sound(screens)
    ensures Sound(Joined(screens, rank)) && |Joined(screens, rank)| == |screens|
    ensures forall i :: 0 <= i < |screens| ==> (Joined(screens, rank)[i].enabled <==> screens[i].modes != [])
  {
    EnabledIsGrown(screens);
    var e, n := Enabled(screens), Joined(screens, rank);
    var k :| 0 <= k < |screens| && MainAt(screens, k);
    JoinedAt(screens, rank, k);
    forall i | 0 <= i < |screens|
      ensures n[i].name == e[i].name && n[i].primary == e[i].primary && n[i].enabled == e[i].enabled
              && n[i].modes == e[i].modes && n[i].scale == e[i].scale
    {
      JoinedAt(screens, rank, i);
      hide Joined, Enabled, PlaceOf, SortScreens, On;
    }
    hide Joined, Enabled;
    forall i | 0 <= i < |n| ensures 0.0 <= n[i].scale {
      assert NoNegativeSize(e[i]);
    }
    PlainUpdateKeepsSound(e, n);
  }

  /** Join always gives a layout that can be applied, with every manageable screen on. */
  lemma JoinHasNoProblem(screens: seq<Screen>, rank: string -> int)
    requires Sound(screens)
    ensures ProblemOf(Joined(screens, rank)) == None
  {
    JoinKeepsSound(screens, rank);
    var n := Joined(screens, rank);
    SoundHasMain(n);
    hide Joined, Sound, LogicalSize, On, MainsOn;
    forall i, j | 0 <= i < j < |n| && n[i].enabled && n[j].enabled ensures !Collide(BoxOf(n[i]), BoxOf(n[j])) {
      JoinKeepsOrder(screens, rank, i, j);
    }
  }

  // ---------------------------------------------------------------- clone

  function SizeOf(m: Mode): Size { Size(m.width, m.height) }

  function Area(s: Size): real { s.width * s.height }

  /** The sizes of the modes, each once, in order of first appearance. */
  function DistinctSizes(modes: seq<Mode>): seq<Size> {
    if modes == [] then []
    else
      var front := DistinctSizes(modes[..|modes| - 1]);
      var size := SizeOf(modes[|modes| - 1]);
      if size in front then front else front + [size]
  }

  function InsertSize(sorted: seq<Size>, size: Size): seq<Size> {
    if sorted == [] || Area(sorted[|sorted| - 1]) >= Area(size) then sorted + [size]
    else InsertSize(sorted[..|sorted| - 1], size) + [sorted[|sorted| - 1]]
  }

  function LargestFirst(sizes: seq<Size>): seq<Size> {
    if sizes == [] then [] else InsertSize(LargestFirst(sizes[..|sizes| - 1]), sizes[|sizes| - 1])
  }

  /** The sizes a screen offers, largest first, each once. */
  function Resolutions(s: Screen): seq<Size> { LargestFirst(DistinctSizes(s.modes)) }

  method ComputeResolutions(s: Screen) returns (sizes: seq<Size>)
    ensures sizes == Resolutions(s)
  {
    var seen: set<Size> := {};
    sizes := [];
    for i := 0 to |s.modes|
      invariant sizes == DistinctSizes(s.modes[..i])
      invariant seen == set size | size in sizes
    {
      var key := SizeOf(s.modes[i]);
      assert s.modes[..i + 1][..i] == s.modes[..i];
      if key !in seen {
        seen := seen + {key};
        sizes := sizes + [key];
      }
    }
    assert s.modes[..|s.modes|] == s.modes;
    sizes := LargestFirst(sizes);
  }

  predicate OffersSize(s: Screen, size: Size) { exists m :: m in s.modes && SizeOf(m) == size }

  function CommonTo(sizes: seq<Size>, screens: seq<Screen>): seq<Size> {
    if sizes == [] then []
    else (if forall s :: s in screens ==> OffersSize(s, sizes[0]) then [sizes[0]] else []) + CommonTo(sizes[1..], screens)
  }

  /** The sizes every manageable screen offers, largest first. */
  function CommonResolutions(screens: seq<Screen>): seq<Size> {
    var managed := Manageable(screens);
    if managed == [] then [] else CommonTo(Resolutions(managed[0]), managed[1..])
  }

  lemma {:induction false} DistinctSizesOffered(modes: seq<Mode>)
    ensures forall size :: size in DistinctSizes(modes) <==> exists m :: m in modes && SizeOf(m) == size
    ensures forall i, j :: 0 <= i < j < |DistinctSizes(modes)| ==> DistinctSizes(modes)[i] != DistinctSizes(modes)[j]
  {
    if modes != [] {
      var front, last := modes[..|modes| - 1], modes[|modes| - 1];
      assert modes == front + [last];
      DistinctSizesOffered(front);
      forall size ensures size in DistinctSizes(modes) <==> exists m :: m in modes && SizeOf(m) == size {
        if size == SizeOf(last) {
          assert last in modes;
        }
      }
    }
  }

  predicate Descending(sizes: seq<Size>) {
    forall i, j :: 0 <= i < j < |sizes| ==> Area(sizes[i]) >= Area(sizes[j])
  }

  lemma {:induction false} InsertSizeSorts(sorted: seq<Size>, size: Size)
    requires Descending(sorted)
    ensures Descending(InsertSize(sorted, size)) && multiset(InsertSize(sorted, size)) == multiset(sorted) + multiset{size}
  {
    hide Area;
    if sorted != [] && !(Area(sorted[|sorted| - 1]) >= Area(size)) {
      var front, last := sorted[..|sorted| - 1], sorted[|sorted| - 1];
      assert sorted == front + [last];
      InsertSizeSorts(front, size);
      var inserted := InsertSize(front, size);
      forall i | 0 <= i < |inserted| ensures Area(inserted[i]) >= Area(last) {
        assert inserted[i] in multiset(inserted);
        if inserted[i] != size {
          assert inserted[i] in front;
        }
      }
    }
  }

  lemma {:induction false} LargestFirstSorts(sizes: seq<Size>)
    ensures Descending(LargestFirst(sizes)) && multiset(LargestFirst(sizes)) == multiset(sizes)
  {
    hide Area;
    if sizes != [] {
      LargestFirstSorts(sizes[..|sizes| - 1]);
      InsertSizeSorts(LargestFirst(sizes[..|sizes| - 1]), sizes[|sizes| - 1]);
      assert sizes == sizes[..|sizes| - 1] + [sizes[|sizes| - 1]];
    }
  }

  /** The resolutions are exactly the sizes of the modes, each once, by falling area. */
  lemma ResolutionsExact(s: Screen)
    ensures forall size :: size in Resolutions(s) <==> OffersSize(s, size)
    ensures Descending(Resolutions(s)) && |Resolutions(s)| == |DistinctSizes(s.modes)|
  {
    hide Area;
    DistinctSizesOffered(s.modes);
    LargestFirstSorts(DistinctSizes(s.modes));
    forall size ensures size in Resolutions(s) <==> size in DistinctSizes(s.modes) {
      assert size in Resolutions(s) <==> size in multiset(Resolutions(s));
    }
    assert |multiset(Resolutions(s))| == |multiset(DistinctSizes(s.modes))|;
  }

  lemma {:induction false} CommonToExact(sizes: seq<Size>, screens: seq<Screen>)
    requires Descending(sizes)
    ensures forall size :: size in CommonTo(sizes, screens) <==> size in sizes && forall s :: s in screens ==> OffersSize(s, size)
    ensures Descending(CommonTo(sizes, screens))
  {
    hide Area, OffersSize;
    if sizes != [] {
      CommonToExact(sizes[1..], screens);
      var rest := CommonTo(sizes[1..], screens);
      forall j | 0 <= j < |rest| ensures Area(sizes[0]) >= Area(rest[j]) {
        assert rest[j] in sizes[1..];
      }
      assert sizes == [sizes[0]] + sizes[1..];
    }
  }

  lemma DescendingNothing()
    ensures Descending([])
  {
  }

  /** Clone's sizes are exactly those every manageable screen offers; the first is a largest one. */
  lemma CommonResolutionsExact(screens: seq<Screen>)
    ensures forall size :: size in CommonResolutions(screens) <==>
              Manageable(screens) != [] && forall s :: s in Manageable(screens) ==> OffersSize(s, size)
    ensures Descending(CommonResolutions(screens))
  {
    hide OffersSize, Descending, Resolutions, CommonTo, Manageable;
    var managed := Manageable(screens);
    if managed == [] {
      DescendingNothing();
    } else {
      ResolutionsExact(managed[0]);
      CommonToExact(Resolutions(managed[0]), managed[1..]);
      assert managed == [managed[0]] + managed[1..];
    }
  }

  function ToCorner(screens: seq<Screen>, name: string): seq<Screen> {
    Update(screens, name, (s: Screen) => s.(x := 0.0, y := 0.0, rotation := Normal, scale := 1.0))
  }

  function CloneOne(screens: seq<Screen>, name: string, size: Size): seq<Screen> {
    ToCorner(SetResolution(SetEnabled(screens, name, true), name, size), name)
  }

  function CloneAll(cloned: seq<Screen>, todo: seq<Screen>, size: Size): seq<Screen>
    decreases |todo|
  {
    if todo == [] then cloned else CloneAll(CloneOne(cloned, todo[0].name, size), todo[1..], size)
  }

  function FirstMain(screens: seq<Screen>): Option<nat> {
    if screens == [] then None
    else if screens[0].primary && screens[0].enabled then Some(0)
    else
      var i := FirstMain(screens[1..]);
      if i.None? then None else Some(i.value + 1)
  }

  lemma {:induction false} FirstMainIsMain(screens: seq<Screen>)
    ensures FirstMain(screens).Some? ==>
              var k := FirstMain(screens).value; k < |screens| && screens[k].primary && screens[k].enabled
    ensures FirstMain(screens).None? ==> forall j :: 0 <= j < |screens| ==> !(screens[j].primary && screens[j].enabled)
  {
    if screens != [] {
      FirstMainIsMain(screens[1..]);
      assert forall j :: 1 <= j < |screens| ==> screens[j] == screens[1..][j - 1];
    }
  }

  function ChooseMain(cloned: seq<Screen>): seq<Screen> {
    FirstMainIsMain(cloned);
    FirstOnIsOn(cloned);
    var main := if FirstMain(cloned).Some? then FirstMain(cloned) else FirstOn(cloned);
    if main.None? then cloned else SetPrimary(cloned, cloned[main.value].name)
  }

  /** Clone: every screen on at 0,0, the same size and orientation, at 100 %; None without a common size. */
  function Cloned(screens: seq<Screen>): Option<seq<Screen>> {
    if CommonResolutions(screens) == [] then None
    else Some(ChooseMain(CloneAll(screens, Manageable(screens), CommonResolutions(screens)[0])))
  }

  method Clone(screens: seq<Screen>) returns (result: Option<seq<Screen>>)
    ensures result == Cloned(screens)
  {
    hide CommonResolutions, CloneOne, Manageable, ChooseMain;
    var sizes := CommonResolutions(screens);
    if sizes == [] {
      return None;
    }
    var cloned, todo := screens, Manageable(screens);
    for i := 0 to |todo|
      invariant CloneAll(cloned, todo[i..], sizes[0]) == CloneAll(screens, todo, sizes[0])
    {
      assert todo[i..][0] == todo[i] && todo[i..][1..] == todo[i + 1..];
      cloned := CloneOne(cloned, todo[i].name, sizes[0]);
    }
    result := Some(ChooseMain(cloned));
  }

  /** What Clone makes of one manageable screen. */
  function CloneOf(s: Screen, size: Size): Screen {
    var on := if s.enabled || s.modes == [] then s else s.(enabled := true, mode := Some(s.modes[0].id));
    Resized(on, size).(x := 0.0, y := 0.0, rotation := Normal, scale := 1.0)
  }

  lemma ResizedPlace(a: Screen, b: Screen, size: Size)
    requires b == a.(x := b.x, y := b.y)
    ensures Resized(b, size) == Resized(a, size).(x := b.x, y := b.y)
  {
    assert CurrentMode(a) == CurrentMode(b);
  }

  lemma CloneOneAt(screens: seq<Screen>, name: string, size: Size)
    requires UniqueNames(screens)
    ensures var n := CloneOne(screens, name, size);
            |n| == |screens| && forall i :: 0 <= i < |n| ==>
              n[i] == if screens[i].name == name then CloneOf(screens[i], size) else screens[i]
  {
    hide On, MaxOf, RightEdges, Resized;
    FindIsFirst(screens, name);
    var e := SetEnabled(screens, name, true);
    var n := CloneOne(screens, name, size);
    forall i | 0 <= i < |n| ensures n[i] == if screens[i].name == name then CloneOf(screens[i], size) else screens[i] {
      var s := screens[i];
      if s.name == name {
        assert Find(screens, name) == Some(i) by {
          var k := Find(screens, name);
          assert k.Some?;
        }
        var on := if s.enabled || s.modes == [] then s else s.(enabled := true, mode := Some(s.modes[0].id));
        assert e[i] == on.(x := e[i].x, y := e[i].y);
        ResizedPlace(on, e[i], size);
        var r := SetResolution(e, name, size);
        assert r[i] == Resized(e[i], size) && r[i].name == name;
        assert n[i] == r[i].(x := 0.0, y := 0.0, rotation := Normal, scale := 1.0);
      } else {
        assert e[i] == s;
      }
    }
  }

  lemma {:induction false} CloneAllAt(screens: seq<Screen>, todo: seq<Screen>, size: Size)
    requires UniqueNames(screens) && UniqueNames(todo) && forall t :: t in todo ==> t in screens
    ensures var n := CloneAll(screens, todo, size);
            |n| == |screens| && forall i :: 0 <= i < |n| ==>
              n[i] == if screens[i] in todo then CloneOf(screens[i], size) else screens[i]
    decreases |todo|
  {
    hide CloneOf, CloneOne;
    if todo != [] {
      CloneOneAt(screens, todo[0].name, size);
      var next := CloneOne(screens, todo[0].name, size);
      assert todo == [todo[0]] + todo[1..];
      forall t | t in todo[1..] ensures t in next && t.name != todo[0].name {
        var j :| 0 <= j < |todo[1..]| && todo[1..][j] == t;
        assert todo[j + 1] == t && t in todo;
        var i :| 0 <= i < |screens| && screens[i] == t;
        assert next[i] == t;
      }
      CloneNames(screens, next, todo[0].name, size);
      CloneAllAt(next, todo[1..], size);
      hide UniqueNames;
      var n := CloneAll(screens, todo, size);
      forall i | 0 <= i < |n|
        ensures n[i] == if screens[i] in todo then CloneOf(screens[i], size) else screens[i]
      {
        CloneTurn(screens, next, todo, size, i);
      }
    }
  }

  lemma CloneNames(screens: seq<Screen>, next: seq<Screen>, name: string, size: Size)
    requires UniqueNames(screens) && |next| == |screens|
    requires forall i :: 0 <= i < |next| ==> next[i] == if screens[i].name == name then CloneOf(screens[i], size) else screens[i]
    ensures UniqueNames(next)
  {
    forall i | 0 <= i < |next| ensures next[i].name == screens[i].name {
      hide UniqueNames, ChosenMode;
    }
  }

  // One screen, through the first clone step and the rest.
  lemma CloneTurn(screens: seq<Screen>, next: seq<Screen>, todo: seq<Screen>, size: Size, i: nat)
    requires UniqueNames(screens) && i < |screens| == |next| && todo != [] && todo[0] in screens
    requires next[i] == if screens[i].name == todo[0].name then CloneOf(screens[i], size) else screens[i]
    requires forall t :: t in todo[1..] ==> t.name != todo[0].name
    ensures (if next[i] in todo[1..] then CloneOf(next[i], size) else next[i])
              == if screens[i] in todo then CloneOf(screens[i], size) else screens[i]
  {
    assert CloneOf(screens[i], size).name == screens[i].name by { hide ChosenMode; }
    hide CloneOf;
    assert todo == [todo[0]] + todo[1..];
    if screens[i].name == todo[0].name {
      var k :| 0 <= k < |screens| && screens[k] == todo[0];
      assert k == i;
    }
  }

  /** The mode a manageable screen shows once Clone has chosen `size` for it: the first one that
      carries the chosen mode's id. */
  function ShownMode(s: Screen, size: Size): Option<Mode> {
    var on := if s.enabled || s.modes == [] then s else s.(enabled := true, mode := Some(s.modes[0].id));
    var chosen := ChosenMode(on, size);
    if chosen.None? then None else FindMode(s.modes, chosen.value.id)
  }

  function ShownSize(s: Screen, size: Size): Size {
    var mode := ShownMode(s, size);
    if mode.None? then Size(0.0, 0.0) else Size(Scaled(mode.value.width, 1.0), Scaled(mode.value.height, 1.0))
  }

  lemma {:induction false} FindModeFinds(modes: seq<Mode>, m: Mode)
    requires m in modes
    ensures FindMode(modes, m.id).Some?
  {
    if modes[0].id != m.id {
      FindModeFinds(modes[1..], m);
    }
  }

  /** A cloned screen that offers the size is on, at the corner, and takes up what it then shows. */
  lemma CloneShows(s: Screen, size: Size)
    requires s.modes != [] && OffersSize(s, size)
    ensures CloneOf(s, size).enabled && ShownMode(s, size).Some?
    ensures BoxOf(CloneOf(s, size)) == Box(0.0, 0.0, ShownSize(s, size).width, ShownSize(s, size).height)
  {
    var on := if s.enabled then s else s.(enabled := true, mode := Some(s.modes[0].id));
    ChosenModeOffered(on, size);
    var offered :| offered in s.modes && SizeOf(offered) == size;
    FindModeFinds(s.modes, ChosenMode(on, size).value);
    hide ChosenMode, Scaled;
  }

  /** Mode ids name one mode of a screen. */
  predicate UniqueIds(s: Screen) {
    forall i, j :: 0 <= i < j < |s.modes| ==> s.modes[i].id != s.modes[j].id
  }

  lemma {:induction false} FindModeUnique(modes: seq<Mode>, k: nat)
    requires k < |modes| && forall i, j :: 0 <= i < j < |modes| ==> modes[i].id != modes[j].id
    ensures FindMode(modes, modes[k].id) == Some(modes[k])
  {
    if k > 0 {
      assert modes[0].id != modes[k].id;
      FindModeUnique(modes[1..], k - 1);
    }
  }

  /** With unique ids a screen that offers the size shows exactly it. */
  lemma ShowsTheSize(s: Screen, size: Size)
    requires s.modes != [] && UniqueIds(s) && OffersSize(s, size)
    ensures ShownSize(s, size) == Size(Scaled(size.width, 1.0), Scaled(size.height, 1.0))
  {
    var on := if s.enabled then s else s.(enabled := true, mode := Some(s.modes[0].id));
    ChosenModeOffered(on, size);
    var offered :| offered in s.modes && SizeOf(offered) == size;
    var k :| 0 <= k < |s.modes| && s.modes[k] == ChosenMode(on, size).value;
    FindModeUnique(s.modes, k);
    hide ChosenMode, Scaled;
  }

  lemma ClonedAt(screens: seq<Screen>)
    requires Sound(screens) && CommonResolutions(screens) != []
    ensures var size := CommonResolutions(screens)[0]; var n := CloneAll(screens, Manageable(screens), size);
            && Cloned(screens) == Some(ChooseMain(n)) && |n| == |screens|
            && forall i :: 0 <= i < |n| ==>
                 && n[i] == (if screens[i].modes != [] then CloneOf(screens[i], size) else screens[i])
                 && (screens[i].modes != [] ==> OffersSize(screens[i], size))
  {
    hide CommonResolutions, Manageable, ChooseMain, CloneOf, OffersSize;
    ManageableIsExact(screens);
    CommonResolutionsExact(screens);
    var size := CommonResolutions(screens)[0];
    assert size in CommonResolutions(screens);
    CloneAllAt(screens, Manageable(screens), size);
    forall i | 0 <= i < |screens| ensures screens[i] in Manageable(screens) <==> screens[i].modes != [] {
      assert screens[i] in screens;
    }
  }

  lemma CloneAllSound(screens: seq<Screen>, n: seq<Screen>, size: Size)
    requires Sound(screens) && |n| == |screens|
    requires forall i :: 0 <= i < |n| ==> n[i] == (if screens[i].modes != [] then CloneOf(screens[i], size) else screens[i])
    ensures Sound(n)
  {
    hide Resized;
    SameMains(screens, n);
    forall i | 0 <= i < |n| ensures CanBeOn(n[i]) && NoNegativeSize(n[i]) {
      assert CanBeOn(screens[i]) && NoNegativeSize(screens[i]);
    }
  }

  lemma ChooseMainKeepsSound(screens: seq<Screen>)
    requires Sound(screens)
    ensures Sound(ChooseMain(screens)) && |ChooseMain(screens)| == |screens|
    ensures forall i :: 0 <= i < |screens| ==> ChooseMain(screens)[i] == screens[i].(primary := ChooseMain(screens)[i].primary)
  {
    FirstMainIsMain(screens);
    FirstOnIsOn(screens);
    var main := if FirstMain(screens).Some? then FirstMain(screens) else FirstOn(screens);
    if main.Some? {
      SetPrimaryKeepsSound(screens, screens[main.value].name);
    }
  }

  lemma CloneKeepsSound(screens: seq<Screen>)
    requires Sound(screens) && Cloned(screens).Some?
    ensures Sound(Cloned(screens).value)
  {
    ClonedAt(screens);
    var size := CommonResolutions(screens)[0];
    var n := CloneAll(screens, Manageable(screens), size);
    CloneAllSound(screens, n, size);
    ChooseMainKeepsSound(n);
    hide CommonResolutions, CloneAll, ChooseMain, Manageable, Sound;
  }

  lemma ClonedNeedsSize(screens: seq<Screen>)
    requires Cloned(screens).Some?
    ensures CommonResolutions(screens) != []
  {
    hide CommonResolutions, CloneAll, ChooseMain, Manageable;
  }

  /** Whether Clone's layout will be one that can be applied, from the modes alone: of any two
      manageable screens either both show the same rounded size, or one takes up nothing. */
  predicate ClonesAgree(screens: seq<Screen>, size: Size) {
    forall i, j :: 0 <= i < j < |screens| && screens[i].modes != [] && screens[j].modes != [] ==>
      Agree(ShownSize(screens[i], size), ShownSize(screens[j], size))
  }

  predicate Agree(a: Size, b: Size) { a == b || TakesNothing(a) || TakesNothing(b) }

  predicate TakesNothing(s: Size) { s.width <= 0.0 || s.height <= 0.0 }

  lemma CornersCollide(a: Screen, b: Screen, p: Size, q: Size)
    requires BoxOf(a) == Box(0.0, 0.0, p.width, p.height) && BoxOf(b) == Box(0.0, 0.0, q.width, q.height)
    ensures Collide(BoxOf(a), BoxOf(b)) <==> !Agree(p, q)
  {
    hide BoxOf;
  }

  // Where the screens of the cloned layout are, and what they show.
  lemma ClonedBoxes(screens: seq<Screen>)
    requires Sound(screens) && Cloned(screens).Some?
    ensures var n, size := Cloned(screens).value, CommonResolutions(screens)[0];
            && Sound(n) && |n| == |screens| && forall i :: 0 <= i < |n| ==>
              && (n[i].enabled <==> screens[i].modes != [])
              && (screens[i].modes != [] ==> OffersSize(screens[i], size))
              && (n[i].enabled ==>
                    BoxOf(n[i]) == Box(0.0, 0.0, ShownSize(screens[i], size).width, ShownSize(screens[i], size).height))
  {
    ClonedAt(screens);
    var size := CommonResolutions(screens)[0];
    var m := CloneAll(screens, Manageable(screens), size);
    CloneAllSound(screens, m, size);
    ChooseMainKeepsSound(m);
    var n := ChooseMain(m);
    hide CommonResolutions, CloneAll, ChooseMain, Manageable, MainsOn, On, OneMain, UniqueNames, NoNegativeSize;
    forall i | 0 <= i < |n|
      ensures n[i].enabled <==> screens[i].modes != []
      ensures n[i].enabled ==>
                BoxOf(n[i]) == Box(0.0, 0.0, ShownSize(screens[i], size).width, ShownSize(screens[i], size).height)
    {
      assert CanBeOn(screens[i]);
      if screens[i].modes != [] {
        CloneShows(screens[i], size);
        SameSize(m[i], n[i]);
      }
      hide CloneOf, LogicalSize, ShownSize;
    }
    hide BoxOf, Sound;
  }

  /** When Clone gives a layout that can be applied, exactly: from any sound layout with a common size,
      if and only if the modes its screens will show agree. */
  lemma CloneHasNoProblemExactlyWhen(screens: seq<Screen>)
    requires Sound(screens) && Cloned(screens).Some?
    ensures ProblemOf(Cloned(screens).value) == None <==> ClonesAgree(screens, CommonResolutions(screens)[0])
    ensures ProblemOf(Cloned(screens).value) in {None, Some(ScreensOverlap)}
  {
    ClonedNeedsSize(screens);
    ClonedBoxes(screens);
    var n, size := Cloned(screens).value, CommonResolutions(screens)[0];
    SoundHasMain(n);
    hide Cloned, CommonResolutions, Sound, BoxOf, ShownSize, Agree, Collide, OffersSize, MainsOn, On;
    forall i, j | 0 <= i < j < |n| && n[i].enabled && n[j].enabled
      ensures Collide(BoxOf(n[i]), BoxOf(n[j])) <==> !Agree(ShownSize(screens[i], size), ShownSize(screens[j], size))
    {
      CornersCollide(n[i], n[j], ShownSize(screens[i], size), ShownSize(screens[j], size));
    }
  }

  /** In particular when mode ids are unique on each screen: then every screen that is on shows the
      same area. */
  lemma CloneHasNoProblem(screens: seq<Screen>)
    requires Sound(screens) && Cloned(screens).Some?
    requires forall i :: 0 <= i < |screens| ==> UniqueIds(screens[i])
    ensures ProblemOf(Cloned(screens).value) == None
    ensures var n := Cloned(screens).value;
            |n| == |screens| && forall i :: 0 <= i < |n| ==>
              && (n[i].enabled <==> screens[i].modes != [])
              && (n[i].enabled ==> BoxOf(n[i]) == Box(0.0, 0.0, Scaled(CommonResolutions(screens)[0].width, 1.0),
                                                      Scaled(CommonResolutions(screens)[0].height, 1.0)))
  {
    ClonedNeedsSize(screens);
    ClonedBoxes(screens);
    var size := CommonResolutions(screens)[0];
    hide CommonResolutions, Cloned, UniqueIds, OffersSize, BoxOf, ShownSize, Scaled, ProblemOf;
    forall i | 0 <= i < |screens| && screens[i].modes != []
      ensures ShownSize(screens[i], size) == Size(Scaled(size.width, 1.0), Scaled(size.height, 1.0))
    {
      ShowsTheSize(screens[i], size);
    }
    CloneHasNoProblemExactlyWhen(screens);
  }

  const SMALL := Mode("a", 10.0, 10.0, 60.0)
  const LARGE := Mode("a", 20.0, 20.0, 60.0)
  const OTHER := Mode("b", 20.0, 20.0, 60.0)
  const TWO_SCREENS: seq<Screen> := [
    Screen("one", true, Some("a"), 0.0, 0.0, Normal, 1.0, true, [SMALL, LARGE]),
    Screen("two", true, Some("b"), 30.0, 0.0, Normal, 1.0, false, [OTHER])]

  lemma TwoScreensSound()
    ensures Sound(TWO_SCREENS) && Manageable(TWO_SCREENS) == TWO_SCREENS
  {
    assert MainAt(TWO_SCREENS, 0);
    assert TWO_SCREENS[1..] == [TWO_SCREENS[1]] && TWO_SCREENS[1..][1..] == [];
    assert "one" != "two" by { assert "one"[0] != "two"[0]; }
    assert Manageable(TWO_SCREENS[1..]) == [TWO_SCREENS[1]] + Manageable(TWO_SCREENS[1..][1..]);
  }

  lemma TwoScreensCommonSize()
    ensures CommonResolutions(TWO_SCREENS) != [] && CommonResolutions(TWO_SCREENS)[0] == Size(20.0, 20.0)
  {
    TwoScreensSound();
    CommonResolutionsExact(TWO_SCREENS);
    var one, two := TWO_SCREENS[0], TWO_SCREENS[1];
    assert LARGE in one.modes && SizeOf(LARGE) == Size(20.0, 20.0);
    assert OTHER in two.modes && SizeOf(OTHER) == Size(20.0, 20.0);
    assert Size(20.0, 20.0) in CommonResolutions(TWO_SCREENS);
    hide CommonResolutions, Manageable;
    var first := CommonResolutions(TWO_SCREENS)[0];
    assert first in CommonResolutions(TWO_SCREENS) && two in TWO_SCREENS && OffersSize(two, first);
  }

  lemma TwoScreensShow()
    ensures ShownSize(TWO_SCREENS[0], Size(20.0, 20.0)) == Size(10.0, 10.0)
    ensures ShownSize(TWO_SCREENS[1], Size(20.0, 20.0)) == Size(20.0, 20.0)
  {
    var one, two := TWO_SCREENS[0], TWO_SCREENS[1];
    ChosenModeOffered(one, Size(20.0, 20.0));
    ChosenModeOffered(two, Size(20.0, 20.0));
    assert LARGE in one.modes && OTHER in two.modes;
    assert FindMode(one.modes, "a") == Some(SMALL);
    assert FindMode(two.modes, "b") == Some(OTHER);
    hide ChosenMode;
  }

  /** With two modes of one id, Clone can leave screens of different sizes on one place. */
  lemma CloneNeedsUniqueIds()
    ensures Sound(TWO_SCREENS) && Cloned(TWO_SCREENS).Some?
    ensures ProblemOf(Cloned(TWO_SCREENS).value) == Some(ScreensOverlap)
  {
    TwoScreensSound();
    TwoScreensCommonSize();
    TwoScreensShow();
    assert Cloned(TWO_SCREENS).Some?;
    hide CommonResolutions, Cloned, ShownSize, Sound, ProblemOf;
    CloneHasNoProblemExactlyWhen(TWO_SCREENS);
    assert !Agree(ShownSize(TWO_SCREENS[0], Size(20.0, 20.0)), ShownSize(TWO_SCREENS[1], Size(20.0, 20.0)));
  }

  // ---------------------------------------------------------------- arrangement

  datatype Arrangement = JoinMode | CloneMode | SingleMode

  function ArrangementOf(screens: seq<Screen>): Arrangement {
    var on := On(screens);
    if |on| <= 1 then SingleMode
    else if forall s :: s in on ==> s.x == on[0].x && s.y == on[0].y then CloneMode
    else JoinMode
  }

  lemma TwoOn(screens: seq<Screen>, i: nat, j: nat)
    requires UniqueNames(screens) && i < |screens| && j < |screens| && i != j && screens[i].enabled && screens[j].enabled
    ensures |On(screens)| >= 2
  {
    OnIsExact(screens);
    assert screens[i] in On(screens) && screens[j] in On(screens);
    assert screens[i].name != screens[j].name;
    hide On;
  }

  /** Each of the three arrangements is recognised as itself. */
  lemma ArrangementsAreRecognised(screens: seq<Screen>, rank: string -> int, name: string, k: nat)
    requires Sound(screens) && k < |screens| && screens[k].name == name && screens[k].modes != []
    ensures ArrangementOf(Single(screens, name)) == SingleMode
    ensures Cloned(screens).Some? && |On(Cloned(screens).value)| > 1 ==> ArrangementOf(Cloned(screens).value) == CloneMode
    ensures (exists j :: 0 <= j < |screens| && j != k && screens[j].modes != [])
            && (forall i :: 0 <= i < |Joined(screens, rank)| ==> 0.0 < LogicalSize(Joined(screens, rank)[i]).width) ==>
              ArrangementOf(Joined(screens, rank)) == JoinMode
  {
    SingleHasNoProblem(screens, name, k);
    if Cloned(screens).Some? {
      CloneArrangement(screens);
    }
    hide Single, Cloned, LogicalSize, ArrangementOf;
    if (exists j :: 0 <= j < |screens| && j != k && screens[j].modes != [])
       && (forall i :: 0 <= i < |Joined(screens, rank)| ==> 0.0 < LogicalSize(Joined(screens, rank)[i]).width) {
      var j :| 0 <= j < |screens| && j != k && screens[j].modes != [];
      JoinArrangement(screens, rank, k, j);
    }
  }

  lemma JoinArrangement(screens: seq<Screen>, rank: string -> int, i: nat, j: nat)
    requires Sound(screens) && i < |screens| && j < |screens| && i != j && screens[i].modes != [] && screens[j].modes != []
    requires forall k :: 0 <= k < |Joined(screens, rank)| ==> 0.0 < LogicalSize(Joined(screens, rank)[k]).width
    ensures ArrangementOf(Joined(screens, rank)) == JoinMode
  {
    var n := Joined(screens, rank);
    JoinKeepsSound(screens, rank);
    JoinKeepsOrder(screens, rank, i, j);
    TwoOn(n, i, j);
    OnIsExact(n);
    assert n[i] in On(n) && n[j] in On(n);
    hide Joined, On, LogicalSize, Sound;
    assert n[i].x != n[j].x;
  }

  // Every screen of a cloned layout that is on stands at 0,0.
  lemma ClonedAtCorner(screens: seq<Screen>)
    requires Sound(screens) && Cloned(screens).Some?
    ensures forall i :: 0 <= i < |Cloned(screens).value| && Cloned(screens).value[i].enabled ==>
              Cloned(screens).value[i].x == 0.0 && Cloned(screens).value[i].y == 0.0
  {
    hide CommonResolutions, CloneAll, ChooseMain, Manageable, Cloned, CloneOf, Sound;
    assert CommonResolutions(screens) != [] by { ClonedNeedsSize(screens); }
    ClonedAt(screens);
    var size := CommonResolutions(screens)[0];
    var m := CloneAll(screens, Manageable(screens), size);
    CloneAllSound(screens, m, size);
    ChooseMainKeepsSound(m);
    forall i | 0 <= i < |screens| ensures m[i].enabled ==> m[i].x == 0.0 && m[i].y == 0.0 {
      SoundAt(screens, i);
      CloneCorner(screens[i], size);
    }
  }

  lemma CloneCorner(s: Screen, size: Size)
    ensures CloneOf(s, size).x == 0.0 && CloneOf(s, size).y == 0.0
  {
    hide Resized;
  }

  lemma CloneArrangement(screens: seq<Screen>)
    requires Sound(screens) && Cloned(screens).Some?
    ensures |On(Cloned(screens).value)| > 1 ==> ArrangementOf(Cloned(screens).value) == CloneMode
  {
    hide Cloned, On, Sound;
    ClonedAtCorner(screens);
    var n := Cloned(screens).value;
    OnIsExact(n);
    forall s | s in On(n) ensures s.x == 0.0 && s.y == 0.0 {
      var i :| 0 <= i < |n| && n[i] == s;
    }
  }

  lemma SoundAt(screens: seq<Screen>, i: nat)
    requires Sound(screens) && i < |screens|
    ensures CanBeOn(screens[i])
  {
  }

  // ---------------------------------------------------------------- magnetic edges

  function Distance(a: real, b: real): real { if a < b then b - a else a - b }

  /** The guide a value sticks to: a nearest one of those close enough, or none. */
  predicate IsNearest(value: real, guides: seq<real>, within: real, best: Option<real>) {
    match best
    case None => forall g :: g in guides ==> within < Distance(g, value)
    case Some(b) =>
      b in guides && Distance(b, value) <= within && forall g :: g in guides ==> Distance(b, value) <= Distance(g, value)
  }

  method Nearest(value: real, guides: seq<real>, within: real) returns (best: Option<real>)
    ensures IsNearest(value, guides, within, best)
    ensures best.Some? ==>
              exists k :: 0 <= k < |guides| && guides[k] == best.value
                          && forall j :: 0 <= j < k ==> Distance(best.value, value) < Distance(guides[j], value)
  {
    best := None;
    ghost var first := 0;
    for i := 0 to |guides|
      invariant best.None? ==> forall j :: 0 <= j < i ==> within < Distance(guides[j], value)
      invariant best.Some? ==>
                  && 0 <= first < i && guides[first] == best.value && Distance(best.value, value) <= within
                  && (forall j :: 0 <= j < i ==> Distance(best.value, value) <= Distance(guides[j], value))
                  && (forall j :: 0 <= j < first ==> Distance(best.value, value) < Distance(guides[j], value))
    {
      if Distance(guides[i], value) <= within
         && (best.None? || Distance(guides[i], value) < Distance(best.value, value)) {
        best := Some(guides[i]);
        first := i;
      }
    }
  }

  /** The other screens that are on. */
  function OthersOn(screens: seq<Screen>, name: string): seq<Screen> {
    if screens == [] then []
    else (if screens[0].enabled && screens[0].name != name then [screens[0]] else []) + OthersOn(screens[1..], name)
  }

  /** Side by side on either side, or aligned, along one axis. */
  function Guides(others: seq<Box>, size: real, horizontal: bool): seq<real> {
    if others == [] then []
    else
      var at := if horizontal then others[0].x else others[0].y;
      var extent := if horizontal then others[0].width else others[0].height;
      [at + extent, at - size, at, at + extent - size] + Guides(others[1..], size, horizontal)
  }

  function Boxes(screens: seq<Screen>): (r: seq<Box>)
    ensures |r| == |screens| && forall i :: 0 <= i < |r| ==> r[i] == BoxOf(screens[i])
  {
    seq(|screens|, i requires 0 <= i < |screens| => BoxOf(screens[i]))
  }

  /** The dragged edge meets an edge of another screen. */
  predicate EdgesMeet(x: real, size: real, at: real, extent: real) {
    x == at + extent || x + size == at || x == at || x + size == at + extent
  }

  lemma {:induction false} GuidesMeetEdges(others: seq<Box>, size: real, g: real, horizontal: bool)
    ensures g in Guides(others, size, horizontal) <==>
              exists b :: b in others && if horizontal then EdgesMeet(g, size, b.x, b.width) else EdgesMeet(g, size, b.y, b.height)
  {
    if others != [] {
      GuidesMeetEdges(others[1..], size, g, horizontal);
      assert others == [others[0]] + others[1..];
    }
  }

  lemma {:induction false} OthersOnExact(screens: seq<Screen>, name: string)
    ensures forall s :: s in OthersOn(screens, name) <==> s in screens && s.enabled && s.name != name
  {
    if screens != [] {
      OthersOnExact(screens[1..], name);
    }
  }

  /** Some other screen that is on has an edge that a screen of this extent would meet at `x`. */
  predicate Touches(screens: seq<Screen>, name: string, x: real, size: real, horizontal: bool) {
    exists s :: s in screens && s.enabled && s.name != name
                && (if horizontal then EdgesMeet(x, size, s.x, LogicalSize(s).width)
                    else EdgesMeet(x, size, s.y, LogicalSize(s).height))
  }

  lemma GuideTouches(screens: seq<Screen>, name: string, size: real, g: real, horizontal: bool)
    ensures g in Guides(Boxes(OthersOn(screens, name)), size, horizontal) <==> Touches(screens, name, g, size, horizontal)
  {
    hide LogicalSize, Guides;
    var others := OthersOn(screens, name);
    OthersOnExact(screens, name);
    hide OthersOn;
    GuidesMeetEdges(Boxes(others), size, g, horizontal);
    if Touches(screens, name, g, size, horizontal) {
      var s :| s in screens && s.enabled && s.name != name
               && (if horizontal then EdgesMeet(g, size, s.x, LogicalSize(s).width)
                   else EdgesMeet(g, size, s.y, LogicalSize(s).height));
      assert s in others;
      var i :| 0 <= i < |others| && others[i] == s;
      assert Boxes(others)[i] in Boxes(others);
    }
    if g in Guides(Boxes(others), size, horizontal) {
      var b :| b in Boxes(others) && if horizontal then EdgesMeet(g, size, b.x, b.width) else EdgesMeet(g, size, b.y, b.height);
      var i :| 0 <= i < |others| && Boxes(others)[i] == b;
      assert others[i] in others;
    }
  }

  /** A landing coordinate: on the nearest edge in reach, or, with none in reach, where it was dropped. */
  ghost predicate Lands(screens: seq<Screen>, name: string, dropped: real, landed: real, size: real, within: real, horizontal: bool) {
    || (&& Touches(screens, name, landed, size, horizontal) && Distance(landed, dropped) <= within
        && forall g :: Touches(screens, name, g, size, horizontal) ==> Distance(landed, dropped) <= Distance(g, dropped))
    || (&& landed == Round(dropped)
        && forall g :: Touches(screens, name, g, size, horizontal) ==> within < Distance(g, dropped))
  }

  lemma NearestLands(screens: seq<Screen>, name: string, dropped: real, best: Option<real>, size: real, within: real, horizontal: bool)
    requires IsNearest(dropped, Guides(Boxes(OthersOn(screens, name)), size, horizontal), within, best)
    ensures Lands(screens, name, dropped, if best.Some? then best.value else Round(dropped), size, within, horizontal)
  {
    hide Touches, Guides, Boxes, OthersOn;
    forall g ensures g in Guides(Boxes(OthersOn(screens, name)), size, horizontal) <==> Touches(screens, name, g, size, horizontal) {
      GuideTouches(screens, name, size, g, horizontal);
    }
  }

  /** Where a dragged screen lands. */
  method Snap(screens: seq<Screen>, name: string, x: real, y: real, within: real) returns (left: real, top: real)
    ensures Find(screens, name).None? ==> left == Round(x) && top == Round(y)
    ensures Find(screens, name).Some? ==>
              && Find(screens, name).value < |screens|
              && var size := LogicalSize(screens[Find(screens, name).value]);
                 Lands(screens, name, x, left, size.width, within, true) && Lands(screens, name, y, top, size.height, within, false)
  {
    FindIsFirst(screens, name);
    var moving := Find(screens, name);
    if moving.None? {
      return Round(x), Round(y);
    }
    var size := LogicalSize(screens[moving.value]);
    var others := Boxes(OthersOn(screens, name));
    var byX := Nearest(x, Guides(others, size.width, true), within);
    var byY := Nearest(y, Guides(others, size.height, false), within);
    NearestLands(screens, name, x, byX, size.width, within, true);
    NearestLands(screens, name, y, byY, size.height, within, false);
    left := if byX.Some? then byX.value else Round(x);
    top := if byY.Some? then byY.value else Round(y);
  }

  // ---------------------------------------------------------------- every sequence of edits

  datatype Edit =
    | Resize(name: string, size: Size) | UseMode(name: string, id: string) | Rotate(name: string, rotation: Rotation)
    | Rescale(name: string, scale: real) | MakeMain(name: string) | Turn(name: string, on: bool)
    | Drag(name: string, x: real, y: real) | ToOrigin | JoinAll(rank: string -> int) | CloneEach | Only(name: string)

  function Apply(screens: seq<Screen>, e: Edit): seq<Screen> {
    match e
    case Resize(name, size) => SetResolution(screens, name, size)
    case UseMode(name, id) => SetMode(screens, name, id)
    case Rotate(name, rotation) => SetRotation(screens, name, rotation)
    case Rescale(name, scale) => SetScale(screens, name, scale)
    case MakeMain(name) => SetPrimary(screens, name)
    case Turn(name, on) => SetEnabled(screens, name, on)
    case Drag(name, x, y) => Move(screens, name, x, y)
    case ToOrigin => Normalize(screens)
    case JoinAll(rank) => Joined(screens, rank)
    case CloneEach => if Cloned(screens).Some? then Cloned(screens).value else screens
    case Only(name) => Single(screens, name)
  }

  function ApplyAll(screens: seq<Screen>, edits: seq<Edit>): seq<Screen> {
    if edits == [] then screens else Apply(ApplyAll(screens, edits[..|edits| - 1]), edits[|edits| - 1])
  }

  lemma EditKeepsSound(screens: seq<Screen>, e: Edit)
    requires Sound(screens)
    ensures Sound(Apply(screens, e))
  {
    hide Sound, SetResolution, SetMode, SetRotation, SetScale, SetPrimary, SetEnabled, Move, Normalize, Joined, Cloned, Single;
    match e
    case MakeMain(name) => SetPrimaryKeepsSound(screens, name);
    case Turn(name, on) => SetEnabledKeepsSound(screens, name, on);
    case ToOrigin => NormalizeKeepsSound(screens);
    case JoinAll(rank) => JoinKeepsSound(screens, rank);
    case CloneEach => if Cloned(screens).Some? { CloneKeepsSound(screens); }
    case Only(name) => SingleKeepsSound(screens, name);
    case Resize(name, size) => ScreenEditsKeepSound(screens, name, size, "", Normal, 1.0, 0.0, 0.0);
    case UseMode(name, id) => ScreenEditsKeepSound(screens, name, Size(0.0, 0.0), id, Normal, 1.0, 0.0, 0.0);
    case Rotate(name, rotation) => ScreenEditsKeepSound(screens, name, Size(0.0, 0.0), "", rotation, 1.0, 0.0, 0.0);
    case Rescale(name, scale) => ScreenEditsKeepSound(screens, name, Size(0.0, 0.0), "", Normal, scale, 0.0, 0.0);
    case Drag(name, x, y) => ScreenEditsKeepSound(screens, name, Size(0.0, 0.0), "", Normal, 1.0, x, y);
  }

  /** Any sequence of edits keeps at least one screen on and exactly one main screen, on; only an
      overlap can then stand in the way of applying the layout. */
  lemma {:induction false} EditsKeepSound(screens: seq<Screen>, edits: seq<Edit>)
    requires Sound(screens)
    ensures var n := ApplyAll(screens, edits);
            && Sound(n) && On(n) != [] && MainsOn(n) == 1
            && ProblemOf(n) == if Overlapping(n) then Some(ScreensOverlap) else None
  {
    if edits != [] {
      EditsKeepSound(screens, edits[..|edits| - 1]);
      hide Sound, Apply, ProblemOf, Overlapping, On, MainsOn;
      EditKeepsSound(ApplyAll(screens, edits[..|edits| - 1]), edits[|edits| - 1]);
    }
    var n := ApplyAll(screens, edits);
    MainCounts(n);
    SoundHasMain(n);
    hide Sound, ProblemOf, Overlapping, On, MainsOn;
  }

  lemma MainCounts(screens: seq<Screen>)
    requires Sound(screens)
    ensures MainsOn(screens) == 1
  {
    var k :| 0 <= k < |screens| && MainAt(screens, k);
    OneMainCounts(screens, k);
  }
}
