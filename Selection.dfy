/** The set of selected angle names and the list of angles a run generates. */
module Selection {
  import opened Types

  /** The checkbox toggle: `name` changes membership, no other name does. */
  function Toggle(selected: set<JsString>, name: JsString): (r: set<JsString>)
    ensures name in r <==> name !in selected
    ensures forall n :: n != name ==> (n in r <==> n in selected)
  {
    if name in selected then selected - {name} else selected + {name}
  }

  /** Toggling the same name twice restores the selection. */
  lemma ToggleTwice(selected: set<JsString>, name: JsString)
    ensures Toggle(Toggle(selected, name), name) == selected
  {
  }

  /** `CAMERA_ANGLES.filter(angle => selected.has(angle.name))`. */
  function SelectAngles(angles: seq<CameraAngle>, selected: set<JsString>): (r: seq<CameraAngle>)
    ensures |r| <= |angles|
    ensures forall a :: a in r <==> a in angles && a.name in selected
  {
    if angles == [] then []
    else
      var rest := SelectAngles(angles[1..], selected);
      assert forall a :: a in angles <==> a == angles[0] || a in angles[1..];
      if angles[0].name in selected then [angles[0]] + rest else rest
  }

  /** The filter keeps the static list's order: selecting from a concatenation
      is the concatenation of the selections. */
  lemma {:induction false} SelectAppend(a: seq<CameraAngle>, b: seq<CameraAngle>, selected: set<JsString>)
    ensures SelectAngles(a + b, selected) == SelectAngles(a, selected) + SelectAngles(b, selected)
    decreases |a|
  {
    if a != [] {
      assert (a + b)[1..] == a[1..] + b;
      SelectAppend(a[1..], b, selected);
    } else {
      assert a + b == b;
    }
  }

  /** With every name selected the run covers the whole static list, in order. */
  lemma {:induction false} SelectEverything(angles: seq<CameraAngle>, selected: set<JsString>)
    requires forall k :: 0 <= k < |angles| ==> angles[k].name in selected
    ensures SelectAngles(angles, selected) == angles
    decreases |angles|
  {
    if angles != [] {
      SelectEverything(angles[1..], selected);
    }
  }
}
