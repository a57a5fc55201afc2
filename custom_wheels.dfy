/**
 * The store of user-defined wheels: loaded once from browser storage (falling back to
 * three built-in wheels), and changed only through a save that writes storage first and
 * updates the list only when that write succeeded.
 */
module CustomWheels {
  import opened Wrappers

  datatype WheelOption = WheelOption(id: string, name: string, icon: Option<string>)

  datatype CustomWheel = CustomWheel(id: string, name: string, icon: string, options: seq<WheelOption>)

  /** A partial wheel: each present field overrides the wheel's own. */
  datatype WheelPatch = WheelPatch(
    id: Option<string>,
    name: Option<string>,
    icon: Option<string>,
    options: Option<seq<WheelOption>>)

  /** What the mount-time read of the storage key yields. */
  datatype StoredWheels = Absent | Malformed | Parsed(wheels: seq<CustomWheel>)

  const NoChange: WheelPatch := WheelPatch(None, None, None, None)

  function Pick<T>(patch: Option<T>, current: T): T
  {
    if patch.Some? then patch.value else current
  }

  /** `{ ...w, ...patch }`. */
  function Merge(w: CustomWheel, patch: WheelPatch): (m: CustomWheel)
  {
    CustomWheel(Pick(patch.id, w.id), Pick(patch.name, w.name), Pick(patch.icon, w.icon), Pick(patch.options, w.options))
  }

  /** The empty patch changes nothing, and applying a patch twice is applying it once. */
  lemma MergeLaws(w: CustomWheel, patch: WheelPatch)
    ensures Merge(w, NoChange) == w
    ensures Merge(Merge(w, patch), patch) == Merge(w, patch)
    ensures patch.id.None? ==> Merge(w, patch).id == w.id
  {
  }

  /** `wheels.map(w => w.id === id ? { ...w, ...patch } : w)`. */
  function Updated(wheels: seq<CustomWheel>, id: string, patch: WheelPatch): (r: seq<CustomWheel>)
    ensures |r| == |wheels|
    ensures forall i :: 0 <= i < |wheels| ==>
      r[i] == (if wheels[i].id == id then Merge(wheels[i], patch) else wheels[i])
  {
    if wheels == [] then []
    else
      var w := wheels[|wheels| - 1];
      Updated(wheels[..|wheels| - 1], id, patch) + [if w.id == id then Merge(w, patch) else w]
  }

  /** `wheels.filter(w => w.id !== id)`. */
  function Deleted(wheels: seq<CustomWheel>, id: string): (r: seq<CustomWheel>)
    ensures |r| <= |wheels|
    ensures forall w :: w in r <==> w in wheels && w.id != id
  {
    if wheels == [] then []
    else
      var w := wheels[|wheels| - 1];
      Deleted(wheels[..|wheels| - 1], id) + (if w.id == id then [] else [w])
  }

  predicate HasId(wheels: seq<CustomWheel>, id: string)
  {
    exists w :: w in wheels && w.id == id
  }

  /** Deleting keeps the list exactly when no wheel carries the id; otherwise it shrinks. */
  lemma {:induction false} DeletedShrinks(wheels: seq<CustomWheel>, id: string)
    ensures !HasId(wheels, id) <==> Deleted(wheels, id) == wheels
    ensures HasId(wheels, id) ==> |Deleted(wheels, id)| < |wheels|
    decreases |wheels|
  {
    if wheels != [] {
      var init := wheels[..|wheels| - 1];
      var w := wheels[|wheels| - 1];
      assert wheels == init + [w];
      DeletedShrinks(init, id);
      if w.id != id {
        if HasId(wheels, id) {
          var v :| v in wheels && v.id == id;
          assert v in init;
        }
      } else {
        assert w in wheels;
      }
    }
  }

  /** Deleting works wheel by wheel, so the wheels kept stay in their order. */
  lemma {:induction false} DeletedOfConcat(a: seq<CustomWheel>, b: seq<CustomWheel>, id: string)
    ensures Deleted(a + b, id) == Deleted(a, id) + Deleted(b, id)
    decreases |b|
  {
    if b == [] {
      assert a + b == a;
    } else {
      var b0 := b[..|b| - 1];
      assert (a + b)[..|a + b| - 1] == a + b0;
      DeletedOfConcat(a, b0, id);
    }
  }

  /** Deleting the wheel just added under a fresh id gives back the earlier list. */
  lemma DeleteUndoesAdd(wheels: seq<CustomWheel>, wheel: CustomWheel)
    requires !HasId(wheels, wheel.id)
    ensures Deleted(wheels + [wheel], wheel.id) == wheels
  {
    assert (wheels + [wheel])[..|wheels|] == wheels;
    DeletedShrinks(wheels, wheel.id);
  }

  /** An update that keeps the ids is invisible to a later delete of the same id. */
  lemma {:induction false} DeleteAfterUpdate(wheels: seq<CustomWheel>, id: string, patch: WheelPatch)
    requires patch.id.None? || patch.id == Some(id)
    ensures Deleted(Updated(wheels, id, patch), id) == Deleted(wheels, id)
    decreases |wheels|
  {
    if wheels != [] {
      var init := wheels[..|wheels| - 1];
      var u := Updated(wheels, id, patch);
      assert u[..|u| - 1] == Updated(init, id, patch);
      DeleteAfterUpdate(init, id, patch);
    }
  }

  /** An update of an id no wheel has changes nothing. */
  lemma UpdateMissing(wheels: seq<CustomWheel>, id: string, patch: WheelPatch)
    requires !HasId(wheels, id)
    ensures Updated(wheels, id, patch) == wheels
  {
    var u := Updated(wheels, id, patch);
    forall i | 0 <= i < |wheels|
      ensures u[i] == wheels[i]
    {
      assert wheels[i] in wheels;
    }
  }

  function Challenges(): CustomWheel
  {
    CustomWheel("challenges", "Challenges", "🎯", [
      WheelOption("c1", "No Power-ups", Some("🚫")),
      WheelOption("c2", "Speedrun", Some("⏱️")),
      WheelOption("c3", "100% Completion", Some("💯")),
      WheelOption("c4", "Hard Mode", Some("💀")),
      WheelOption("c5", "Blind Play", Some("🙈")),
      WheelOption("c6", "Co-op Only", Some("👥"))])
  }

  function Modifiers(): CustomWheel
  {
    CustomWheel("modifiers", "Modifiers", "🎲", [
      WheelOption("m1", "Double Points", Some("✨")),
      WheelOption("m2", "Half Health", Some("❤️")),
      WheelOption("m3", "Infinite Ammo", Some("🔫")),
      WheelOption("m4", "No Saves", Some("💾")),
      WheelOption("m5", "Time Limit", Some("⏰"))])
  }

  function Rewards(): CustomWheel
  {
    CustomWheel("rewards", "Rewards", "🏆", [
      WheelOption("r1", "Extra Life", Some("❤️")),
      WheelOption("r2", "Power-up", Some("⚡")),
      WheelOption("r3", "Bonus Points", Some("🌟")),
      WheelOption("r4", "Skip Level", Some("⏭️")),
      WheelOption("r5", "Mystery Box", Some("🎁"))])
  }

  /** The built-in wheels. */
  function DefaultWheels(): (ws: seq<CustomWheel>)
    ensures |ws| == 3
    ensures [ws[0].id, ws[1].id, ws[2].id] == ["challenges", "modifiers", "rewards"]
  {
    [Challenges(), Modifiers(), Rewards()]
  }

  predicate DistinctWheelIds(ws: seq<CustomWheel>)
  {
    forall i, j :: 0 <= i < j < |ws| ==> ws[i].id != ws[j].id
  }

  predicate DistinctOptionIds(os: seq<WheelOption>)
  {
    forall i, j :: 0 <= i < j < |os| ==> os[i].id != os[j].id
  }

  /** Every built-in wheel can be spun (it has options), wheel ids are distinct, and so
    * are the option ids inside each wheel. */
  lemma DefaultWheelsWellFormed()
    ensures DistinctWheelIds(DefaultWheels())
    ensures forall w :: w in DefaultWheels() ==> |w.options| > 0 && DistinctOptionIds(w.options)
  {
    assert DistinctOptionIds(Challenges().options);
    assert DistinctOptionIds(Modifiers().options);
    assert DistinctOptionIds(Rewards().options);
  }

  /** The hook's state. */
  class WheelStore {
    var wheels: seq<CustomWheel>
    var loading: bool

    constructor()
      ensures wheels == [] && loading
    {
      wheels, loading := [], true;
    }

    /** The mount effect: a parsed list is taken as it is; no stored text, or text that
      * does not parse, gives the built-in wheels. Loading ends either way. */
    method Load(read: StoredWheels)
      modifies this
      ensures wheels == (if read.Parsed? then read.wheels else DefaultWheels())
      ensures !loading
    {
      if read.Parsed? {
        wheels := read.wheels;
      } else {
        wheels := DefaultWheels();
      }
      loading := false;
    }

    /** `saveWheels`: the list changes only when the storage write succeeded. */
    method Save(newWheels: seq<CustomWheel>, writeOk: bool)
      modifies this`wheels
      ensures wheels == (if writeOk then newWheels else old(wheels))
    {
      if writeOk {
        wheels := newWheels;
      }
    }

    method AddWheel(wheel: CustomWheel, writeOk: bool)
      modifies this`wheels
      ensures wheels == (if writeOk then old(wheels) + [wheel] else old(wheels))
    {
      Save(wheels + [wheel], writeOk);
    }

    method UpdateWheel(id: string, patch: WheelPatch, writeOk: bool)
      modifies this`wheels
      ensures wheels == (if writeOk then Updated(old(wheels), id, patch) else old(wheels))
    {
      Save(Updated(wheels, id, patch), writeOk);
    }

    method DeleteWheel(id: string, writeOk: bool)
      modifies this`wheels
      ensures wheels == (if writeOk then Deleted(old(wheels), id) else old(wheels))
    {
      Save(Deleted(wheels, id), writeOk);
    }

    method ResetToDefaults(writeOk: bool)
      modifies this`wheels
      ensures wheels == (if writeOk then DefaultWheels() else old(wheels))
    {
      Save(DefaultWheels(), writeOk);
    }
  }
}
