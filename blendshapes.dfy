/**
  The blendshape lookups of main.py: each of the six scores is the score of the
  first category whose name matches, or 0 when no category has that name.
 */
module Blendshapes {
  import opened Expression

  /** One blendshape reported by the landmark engine. */
  datatype Category = Category(categoryName: string, score: real)

  /** Entry i is the first entry of `shapes` whose name is `name`. */
  predicate IsFirstNamed(shapes: seq<Category>, name: string, i: int) {
    0 <= i < |shapes| && shapes[i].categoryName == name
    && forall j :: 0 <= j < i ==> shapes[j].categoryName != name
  }

  predicate Mentions(shapes: seq<Category>, name: string) {
    exists i :: 0 <= i < |shapes| && shapes[i].categoryName == name
  }

  /** The score of the first entry named `name`, defaulting to 0. */
  function Lookup(shapes: seq<Category>, name: string): real {
    if shapes == [] then 0.0
    else if shapes[0].categoryName == name then shapes[0].score
    else Lookup(shapes[1..], name)
  }

  /**
    The lookup returns the score of the first entry with the name, whatever
    follows it, and 0 when no entry has the name.
   */
  lemma {:induction false} LookupFirstNamed(shapes: seq<Category>, name: string)
    ensures forall i :: IsFirstNamed(shapes, name, i) ==> Lookup(shapes, name) == shapes[i].score
    ensures !Mentions(shapes, name) ==> Lookup(shapes, name) == 0.0
  {
    if shapes != [] && shapes[0].categoryName != name {
      var tail := shapes[1..];
      LookupFirstNamed(tail, name);
      forall i | IsFirstNamed(shapes, name, i)
        ensures Lookup(shapes, name) == shapes[i].score
      {
        assert i > 0 && IsFirstNamed(tail, name, i - 1);
      }
      if !Mentions(shapes, name) {
        assert !Mentions(tail, name);
      }
    }
  }

  /** Entries after the first match are never read: later duplicates are ignored. */
  lemma {:induction false} LookupIgnoresLater(shapes: seq<Category>, later: seq<Category>, name: string)
    requires Mentions(shapes, name)
    ensures Lookup(shapes + later, name) == Lookup(shapes, name)
  {
    assert (shapes + later)[0] == shapes[0];
    if shapes[0].categoryName != name {
      var i :| 0 <= i < |shapes| && shapes[i].categoryName == name;
      assert shapes[1..][i - 1].categoryName == name;
      assert (shapes + later)[1..] == shapes[1..] + later;
      LookupIgnoresLater(shapes[1..], later, name);
    }
  }

  /** Entries that do not carry the name are skipped over. */
  lemma {:induction false} LookupSkipsOthers(shapes: seq<Category>, later: seq<Category>, name: string)
    requires !Mentions(shapes, name)
    ensures Lookup(shapes + later, name) == Lookup(later, name)
  {
    if shapes == [] {
      assert shapes + later == later;
    } else {
      var tail := shapes[1..];
      assert shapes[0].categoryName != name;
      assert !Mentions(tail, name);
      LookupSkipsOthers(tail, later, name);
      var whole := shapes + later;
      assert whole[0] == shapes[0];
      assert whole[1..] == tail + later;
      assert Lookup(whole, name) == Lookup(whole[1..], name);
    }
  }

  const MouthSmileLeftName: string := "mouthSmileLeft"
  const MouthSmileRightName: string := "mouthSmileRight"
  const MouthFrownLeftName: string := "mouthFrownLeft"
  const BrowDownLeftName: string := "browDownLeft"
  const JawOpenName: string := "jawOpen"
  const EyeWideLeftName: string := "eyeWideLeft"

  /** The six scores the classifier reads, each looked up by its category name. */
  function ExtractScores(shapes: seq<Category>): Scores {
    Scores(Lookup(shapes, MouthSmileLeftName), Lookup(shapes, MouthSmileRightName),
           Lookup(shapes, MouthFrownLeftName), Lookup(shapes, BrowDownLeftName),
           Lookup(shapes, JawOpenName), Lookup(shapes, EyeWideLeftName))
  }

  /** A face whose blendshapes name none of the six categories is Neutral. */
  lemma UnnamedCategoriesAreNeutral(shapes: seq<Category>)
    requires !Mentions(shapes, MouthSmileLeftName) && !Mentions(shapes, MouthSmileRightName)
    requires !Mentions(shapes, MouthFrownLeftName) && !Mentions(shapes, BrowDownLeftName)
    requires !Mentions(shapes, JawOpenName) && !Mentions(shapes, EyeWideLeftName)
    ensures Classify(ExtractScores(shapes)) == Neutral
  {
    LookupFirstNamed(shapes, MouthSmileLeftName);
    LookupFirstNamed(shapes, MouthFrownLeftName);
    LookupFirstNamed(shapes, BrowDownLeftName);
    LookupFirstNamed(shapes, JawOpenName);
  }

  /**
    Only the first entry named "mouthSmileLeft" and the first named
    "mouthSmileRight" decide a smile: when both are above 0.5 the label is Happy,
    whatever follows them in the list.
   */
  lemma FirstSmileDecides(shapes: seq<Category>, later: seq<Category>)
    requires Mentions(shapes, MouthSmileLeftName) && Mentions(shapes, MouthSmileRightName)
    requires Lookup(shapes, MouthSmileLeftName) > 0.5 && Lookup(shapes, MouthSmileRightName) > 0.5
    ensures Classify(ExtractScores(shapes + later)) == Happy
  {
    LookupIgnoresLater(shapes, later, MouthSmileLeftName);
    LookupIgnoresLater(shapes, later, MouthSmileRightName);
  }
}
