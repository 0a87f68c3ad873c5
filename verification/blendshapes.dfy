/** The blendshape scores a face tracker reports for one face in one frame,
    and the by-name lookup through which the emotion classifier reads them. */
module Blendshapes {

  /** One facial-muscle activation: a category name and its score. The tracker
      reports scores in [0, 1]; nothing in this model depends on that range. */
  datatype Category = Category(name: string, score: real)

  /** True iff `i` is the position of the first entry named `name`. */
  ghost predicate IsFirstMatch(shapes: seq<Category>, name: string, i: int)
  {
    && 0 <= i < |shapes|
    && shapes[i].name == name
    && forall j :: 0 <= j < i ==> shapes[j].name != name
  }

  /** True iff no entry is named `name`. */
  ghost predicate Absent(shapes: seq<Category>, name: string)
  {
    forall i :: 0 <= i < |shapes| ==> shapes[i].name != name
  }

  /** True iff every score lies in [0, 1], the range the tracker reports. */
  ghost predicate InUnitRange(shapes: seq<Category>)
  {
    forall i :: 0 <= i < |shapes| ==> 0.0 <= shapes[i].score <= 1.0
  }

  /** The score of the first entry named `name`, or 0 when there is none:
      a missing category reads as a fully relaxed muscle, never as an error. */
  function GetScore(shapes: seq<Category>, name: string): (r: real)
    ensures forall i :: IsFirstMatch(shapes, name, i) ==> r == shapes[i].score
    ensures Absent(shapes, name) ==> r == 0.0
    ensures InUnitRange(shapes) ==> 0.0 <= r <= 1.0
  {
    if |shapes| == 0 then 0.0
    else if shapes[0].name == name then shapes[0].score
    else
      var rest := GetScore(shapes[1..], name);
      assert forall i :: IsFirstMatch(shapes, name, i) ==> IsFirstMatch(shapes[1..], name, i - 1);
      assert Absent(shapes, name) ==> Absent(shapes[1..], name);
      assert InUnitRange(shapes) ==> InUnitRange(shapes[1..]);
      rest
  }

  /** Every name either has a first occurrence or is absent, so the two
      clauses of `GetScore`'s contract together fix its result. */
  lemma {:induction false} FirstMatchOrAbsent(shapes: seq<Category>, name: string)
    ensures Absent(shapes, name) <==> !exists i :: IsFirstMatch(shapes, name, i)
  {
    if |shapes| == 0 {
    } else if shapes[0].name == name {
      assert IsFirstMatch(shapes, name, 0);
    } else {
      FirstMatchOrAbsent(shapes[1..], name);
      if !Absent(shapes, name) {
        assert !Absent(shapes[1..], name);
        var i :| IsFirstMatch(shapes[1..], name, i);
        assert IsFirstMatch(shapes, name, i + 1);
      }
    }
  }

  /** Looking up in a concatenation: the first part answers whenever it holds
      the name at all, otherwise the second part does. */
  lemma {:induction false} GetScoreConcat(a: seq<Category>, b: seq<Category>, name: string)
    ensures GetScore(a + b, name) == if Absent(a, name) then GetScore(b, name) else GetScore(a, name)
  {
    if |a| == 0 {
      assert a + b == b;
    } else if a[0].name == name {
      assert !Absent(a, name);
      assert (a + b)[0] == a[0];
    } else {
      assert (a + b)[1..] == a[1..] + b;
      GetScoreConcat(a[1..], b, name);
      assert Absent(a, name) <==> Absent(a[1..], name) by {
        if Absent(a[1..], name) {
          forall i | 0 <= i < |a|
            ensures a[i].name != name
          {
            if i > 0 {
              assert a[i] == a[1..][i - 1];
            }
          }
        }
      }
    }
  }

  /** Appending an entry whose name already occurs never changes any lookup:
      the earlier entry always shadows it. */
  lemma AppendShadowed(shapes: seq<Category>, c: Category, name: string)
    requires exists i :: 0 <= i < |shapes| && shapes[i].name == c.name
    ensures GetScore(shapes + [c], name) == GetScore(shapes, name)
  {
    GetScoreConcat(shapes, [c], name);
    if c.name == name {
      assert !Absent(shapes, name);
    } else if Absent(shapes, name) {
      assert Absent([c], name);
    }
  }

  /** An entry with a different name, inserted anywhere, never changes the
      lookup of `name`. */
  lemma InsertOtherName(a: seq<Category>, b: seq<Category>, c: Category, name: string)
    requires c.name != name
    ensures GetScore(a + [c] + b, name) == GetScore(a + b, name)
  {
    assert a + [c] + b == a + ([c] + b);
    GetScoreConcat(a, [c] + b, name);
    GetScoreConcat(a, b, name);
    assert ([c] + b)[1..] == b;
  }
}
