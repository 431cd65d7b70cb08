/** `ButtonManager`: rebuilds the decoy ("fake") buttons inside their parent
    panel. The panel is reduced to its ordered list of child components. */
module DecoyButtons {
  import opened UserSettings

  const FakeText := "Fake!"
  const FakeToolTip := "Don't click! These are fake buttons."

  /** `s` without the members of `gone`, in the same order. */
  function Without(s: seq<object>, gone: seq<object>): (r: seq<object>)
    ensures forall i :: 0 <= i < |r| ==> r[i] in s && r[i] !in gone
    ensures forall i :: 0 <= i < |s| && s[i] !in gone ==> s[i] in r
    ensures |r| <= |s|
    decreases |s|
  {
    if s == [] then [] else (if s[0] in gone then [] else [s[0]]) + Without(s[1..], gone)
  }

  /** Removing the members of one list and then of another removes the
      members of both. */
  lemma {:induction false} WithoutTwice(s: seq<object>, a: seq<object>, b: seq<object>)
    ensures Without(Without(s, a), b) == Without(s, a + b)
    decreases |s|
  {
    if s != [] {
      WithoutTwice(s[1..], a, b);
      if s[0] in a {
        assert Without(s, a) == [] + Without(s[1..], a) == Without(s[1..], a);
        assert Without(s, a + b) == [] + Without(s[1..], a + b);
      } else {
        assert Without(s, a) == [s[0]] + Without(s[1..], a);
        assert Without(s, a)[0] == s[0] && Without(s, a)[1..] == Without(s[1..], a);
      }
    }
  }

  lemma {:induction false} WithoutConcat(a: seq<object>, b: seq<object>, gone: seq<object>)
    ensures Without(a + b, gone) == Without(a, gone) + Without(b, gone)
    decreases |a|
  {
    if a == [] {
      assert a + b == b;
    } else {
      assert (a + b)[0] == a[0] && (a + b)[1..] == a[1..] + b;
      WithoutConcat(a[1..], b, gone);
    }
  }

  lemma WithoutMembership(s: seq<object>, gone: seq<object>, x: object)
    ensures x in Without(s, gone) <==> x in s && x !in gone
  {
    var r := Without(s, gone);
    if x in r {
      var i :| 0 <= i < |r| && r[i] == x;
    }
    if x in s && x !in gone {
      var i :| 0 <= i < |s| && s[i] == x;
    }
  }

  /** Removing everything a list holds leaves nothing. */
  lemma {:induction false} WithoutCovered(s: seq<object>, gone: seq<object>)
    requires forall i :: 0 <= i < |s| ==> s[i] in gone
    ensures Without(s, gone) == []
    decreases |s|
  {
    if s != [] {
      WithoutCovered(s[1..], gone);
    }
  }

  /** Removing what is not there changes nothing. */
  lemma {:induction false} WithoutAbsent(s: seq<object>, gone: seq<object>)
    requires forall x :: x in gone ==> x !in s
    ensures Without(s, gone) == s
    decreases |s|
  {
    if s != [] {
      WithoutAbsent(s[1..], gone);
    }
  }

  /** The buttons of an array slice with no null entries, as components. */
  function Components(s: seq<FakeButton?>): (r: seq<object>)
    requires forall i :: 0 <= i < |s| ==> s[i] != null
    ensures |r| == |s| && forall i :: 0 <= i < |s| ==> r[i] == s[i]
    decreases |s|
  {
    if s == [] then [] else
      var b: FakeButton := s[0];
      [b] + Components(s[1..])
  }

  /** A decoy button; its click handler, styling and placement are not
      modelled. */
  class FakeButton {
    const text: string
    var toolTip: string

    constructor (text: string)
      ensures this.text == text && toolTip == ""
    {
      this.text := text;
      toolTip := "";
    }
  }

  /** A Swing container, as its child components in order. */
  class Panel {
    var children: seq<object>

    constructor ()
      ensures children == []
    {
      children := [];
    }

    /** `Container.remove`: takes the component out if it is a child. */
    method Remove(c: object)
      modifies this
      ensures children == Without(old(children), [c])
    {
      children := Without(children, [c]);
    }

    /** `Container.add`: the component becomes the last child (leaving its
        earlier place, if it had one). */
    method Add(c: object)
      modifies this
      ensures children == Without(old(children), [c]) + [c]
    {
      children := Without(children, [c]) + [c];
    }
  }

  class ButtonManager {
    const settings: Settings
    const parent: Panel
    var fakeButtons: array?<FakeButton?>

    /** Once created, the decoy array has a button in every slot. */
    ghost predicate Valid()
      reads this, fakeButtons
    {
      fakeButtons != null ==> forall i :: 0 <= i < fakeButtons.Length ==> fakeButtons[i] != null
    }

    /** The current decoys, in array order (none before the first creation). */
    function Decoys(): (r: seq<object>)
      reads this, fakeButtons
      requires Valid()
    {
      if fakeButtons == null then [] else Components(fakeButtons[..])
    }

    constructor (settings: Settings, parent: Panel)
      ensures this.settings == settings && this.parent == parent
      ensures fakeButtons == null && Valid()
    {
      this.settings := settings;
      this.parent := parent;
      fakeButtons := null;
    }

    /** The first loop of `createFakeButtons`: every current decoy is
        removed from the panel, the other children stay in order. */
    method RemoveDecoys()
      requires Valid()
      modifies parent
      ensures parent.children == Without(old(parent.children), Decoys())
    {
      if fakeButtons != null {
        var i := 0;
        WithoutAbsent(parent.children, []);
        while i < fakeButtons.Length
          invariant 0 <= i <= fakeButtons.Length
          invariant parent.children == Without(old(parent.children), Components(fakeButtons[..i]))
        {
          var fake: FakeButton := fakeButtons[i];
          parent.Remove(fake);
          WithoutTwice(old(parent.children), Components(fakeButtons[..i]), [fake]);
          assert Components(fakeButtons[..i + 1]) == Components(fakeButtons[..i]) + [fake];
          i := i + 1;
        }
        assert fakeButtons[..i] == fakeButtons[..];
      } else {
        WithoutAbsent(parent.children, []);
      }
    }

    /** The second loop of `createFakeButtons`: `count` new decoys, each
        labelled and appended to the panel in index order. */
    method AppendDecoys(count: nat) returns (made: array<FakeButton?>)
      modifies parent
      ensures fresh(made) && made.Length == count
      ensures forall j :: 0 <= j < count ==> made[j] != null && fresh(made[j])
      ensures parent.children == old(parent.children) + Components(made[..])
    {
      made := new FakeButton?[count](_ => null);
      var i := 0;
      while i < count
        invariant 0 <= i <= count
        invariant forall j :: 0 <= j < i ==> made[j] != null && fresh(made[j])
        invariant forall j :: i <= j < count ==> made[j] == null
        invariant parent.children == old(parent.children) + Components(made[..i])
      {
        var fake := new FakeButton(FakeText);
        fake.toolTip := FakeToolTip;
        made[i] := fake;
        WithoutAbsent(parent.children, [fake]);
        parent.Add(fake);
        assert Components(made[..i + 1]) == Components(made[..i]) + [fake];
        i := i + 1;
      }
      assert made[..i] == made[..];
    }

    /** `createFakeButtons`: removes the previous decoys from the panel, then
        allocates `numFakeButtons` new ones and appends them to the panel in
        index order. A negative count fails the allocation (`ok` false) after
        the old decoys are already gone, and the old array stays. */
    method CreateFakeButtons() returns (ok: bool)
      requires Valid()
      modifies this, parent
      ensures Valid()
      ensures ok == (settings.numFakeButtons >= 0)
      ensures ok ==> fakeButtons != null && fresh(fakeButtons) && fakeButtons.Length == settings.numFakeButtons
      ensures ok ==> forall i :: 0 <= i < fakeButtons.Length ==> fakeButtons[i] != null && fresh(fakeButtons[i])
      ensures ok ==> parent.children == Without(old(parent.children), old(Decoys())) + Decoys()
      ensures !ok ==> fakeButtons == old(fakeButtons) && parent.children == Without(old(parent.children), old(Decoys()))
      ensures forall x :: x in old(Decoys()) ==> x !in parent.children
      ensures forall x :: x in old(parent.children) && x !in old(Decoys()) ==> x in parent.children
    {
      RemoveDecoys();
      forall x | x in old(parent.children) + old(Decoys())
        ensures x in parent.children <==> x in old(parent.children) && x !in old(Decoys())
      {
        WithoutMembership(old(parent.children), old(Decoys()), x);
      }
      if settings.numFakeButtons < 0 {
        return false;
      }
      var made := AppendDecoys(settings.numFakeButtons);
      fakeButtons := made;
      return true;
    }

    /** `getFakeButtons`: the current array, null before the first creation. */
    method GetFakeButtons() returns (buttons: array?<FakeButton?>)
      ensures buttons == fakeButtons
    {
      buttons := fakeButtons;
    }
  }

  /** Creating the decoys twice leaves only the second batch in the panel,
      after the panel's other children: the batches do not accumulate. */
  method RebuildTwice(settings: Settings, parent: Panel) returns (manager: ButtonManager)
    requires settings.numFakeButtons >= 0
    modifies parent
    ensures manager.Valid() && manager.fakeButtons != null
    ensures manager.fakeButtons.Length == settings.numFakeButtons
    ensures parent.children == old(parent.children) + manager.Decoys()
  {
    manager := new ButtonManager(settings, parent);
    var ok := manager.CreateFakeButtons();
    ghost var first := manager.Decoys();
    assert parent.children == old(parent.children) + first by {
      WithoutAbsent(old(parent.children), []);
    }
    ok := manager.CreateFakeButtons();
    WithoutConcat(old(parent.children), first, first);
    WithoutAbsent(old(parent.children), first);
    WithoutCovered(first, first);
    assert old(parent.children) + [] == old(parent.children);
  }
}
