/**
 * The prompt classifier of the front end (`analyzeText`) and the analysis
 * record that `handleGenerate` derives from the prompt.
 *
 * The classifier lower-cases the prompt and runs three independent substring
 * scans over it: a first-match scan of an ordered colour table, a first-match
 * chain of shape synonym pairs, and the size rule.
 */
module App {
  import opened Wrappers

  datatype Shape = Cube | House | Car | Tree | Sphere | Cylinder

  datatype Color = Red | Blue | Green | Yellow | Purple | Orange | Black | White | Gray

  /** The record `analyzeText` returns; `features` is always the empty list. */
  datatype Details = Details(shape: Shape, color: Color, size: real, features: seq<string>)

  datatype Complexity = Simple | Complex

  /** The record `handleGenerate` stores as the analysis (`type` is `modelType` here). */
  datatype Analysis = Analysis(keywords: seq<string>, complexity: Complexity, modelType: Shape)

  // ---------------------------------------------------------------------------
  // Lower-casing and substring search

  function LowerChar(c: char): char
  {
    if 'A' <= c <= 'Z' then (c as int - 'A' as int + 'a' as int) as char else c
  }

  predicate IsLower(s: string)
  {
    forall i | 0 <= i < |s| :: LowerChar(s[i]) == s[i]
  }

  /** `text.toLowerCase()`, character by character. */
  function Lower(s: string): (r: string)
    ensures |r| == |s|
    ensures forall i | 0 <= i < |s| :: r[i] == LowerChar(s[i])
  {
    if s == [] then [] else [LowerChar(s[0])] + Lower(s[1..])
  }

  /** The keyword occurs in the text starting at position `i`. */
  predicate OccursAt(text: string, keyword: string, i: nat)
  {
    i + |keyword| <= |text| && text[i..i + |keyword|] == keyword
  }

  /** `text.includes(keyword)`: the keyword occurs in the text at some position. */
  predicate Includes(text: string, keyword: string)
    ensures Includes(text, keyword) ==> |keyword| <= |text|
  {
    exists i: nat | i <= |text| :: OccursAt(text, keyword, i)
  }

  // ---------------------------------------------------------------------------
  // Colour: first match in table order

  /** The colour table in its declaration order; "grey" also maps to gray. */
  const ColorKeywords: seq<(string, Color)> := [
    ("red", Red), ("blue", Blue), ("green", Green), ("yellow", Yellow),
    ("purple", Purple), ("orange", Orange), ("black", Black), ("white", White),
    ("gray", Gray), ("grey", Gray)
  ]

  /**
   * The index of the first entry, at or after `from`, whose keyword occurs in
   * `text`: every earlier entry's keyword is absent, and None means no
   * keyword from `from` on occurs at all.
   */
  function FirstHitFrom(table: seq<(string, Color)>, text: string, from: nat): (r: Option<nat>)
    requires from <= |table|
    ensures r.Some? ==> from <= r.value < |table| && Includes(text, table[r.value].0)
    ensures r.Some? ==> forall j | from <= j < r.value :: !Includes(text, table[j].0)
    ensures r.None? <==> forall j | from <= j < |table| :: !Includes(text, table[j].0)
    decreases |table| - from
  {
    if from == |table| then None
    else if Includes(text, table[from].0) then Some(from)
    else FirstHitFrom(table, text, from + 1)
  }

  /** The colour of the first table keyword occurring in the lower-cased text, else gray. */
  function ColorOf(lowerText: string): (r: Color)
    ensures NoColorKeyword(lowerText) ==> r == Gray
    ensures !NoColorKeyword(lowerText) ==>
      exists k | 0 <= k < |ColorKeywords| :: Includes(lowerText, ColorKeywords[k].0) && r == ColorKeywords[k].1
  {
    match FirstHitFrom(ColorKeywords, lowerText, 0)
    case Some(k) => ColorKeywords[k].1
    case None => Gray
  }

  // ---------------------------------------------------------------------------
  // Shape and size: if/else chains of synonym pairs

  function ShapeOf(lowerText: string): (r: Shape)
    ensures r == Cube <==> NoShapeKeyword(lowerText)
  {
    if Includes(lowerText, "house") || Includes(lowerText, "building") then House
    else if Includes(lowerText, "car") || Includes(lowerText, "vehicle") then Car
    else if Includes(lowerText, "tree") || Includes(lowerText, "plant") then Tree
    else if Includes(lowerText, "sphere") || Includes(lowerText, "ball") then Sphere
    else if Includes(lowerText, "cylinder") || Includes(lowerText, "tube") then Cylinder
    else Cube
  }

  function SizeOf(lowerText: string): (r: real)
    ensures r in {0.5, 1.0, 2.0}
    ensures r == 1.0 <==> NoSizeKeyword(lowerText)
  {
    if Includes(lowerText, "large") || Includes(lowerText, "big") then 2.0
    else if Includes(lowerText, "small") || Includes(lowerText, "tiny") then 0.5
    else 1.0
  }

  /** The whole classifier as one value: what `analyzeText(text)` returns. */
  function Classify(text: string): (r: Details)
    ensures r.features == []
    ensures r.shape == Cube <==> NoShapeKeyword(Lower(text))
    ensures NoColorKeyword(Lower(text)) ==> r.color == Gray
    ensures r.size == 1.0 <==> NoSizeKeyword(Lower(text))
  {
    var lowerText := Lower(text);
    Details(ShapeOf(lowerText), ColorOf(lowerText), SizeOf(lowerText), [])
  }

  /**
   * `analyzeText` as written: the colour table is scanned by a loop that
   * stops at the first keyword found, then the shape and size chains run.
   */
  method AnalyzeText(text: string) returns (details: Details)
    ensures details == Classify(text)
    ensures details.features == []
    ensures details.size in {0.5, 1.0, 2.0}
  {
    var lowerText := Lower(text);
    var color := Gray;
    var i := 0;
    while i < |ColorKeywords|
      invariant 0 <= i <= |ColorKeywords|
      invariant forall j | 0 <= j < i :: !Includes(lowerText, ColorKeywords[j].0)
      invariant FirstHitFrom(ColorKeywords, lowerText, 0) == FirstHitFrom(ColorKeywords, lowerText, i)
    {
      var (keyword, value) := ColorKeywords[i];
      if Includes(lowerText, keyword) {
        color := value;
        break;
      }
      i := i + 1;
    }
    details := Details(ShapeOf(lowerText), color, SizeOf(lowerText), []);
  }

  // ---------------------------------------------------------------------------
  // Substring facts used by the lemmas below

  /** A keyword holding a character the text lacks does not occur in it. */
  lemma MissingChar(text: string, keyword: string, c: char)
    requires c in keyword && c !in text
    ensures !Includes(text, keyword)
  {
    var j :| 0 <= j < |keyword| && keyword[j] == c;
    forall i: nat | i <= |text|
      ensures !OccursAt(text, keyword, i)
    {
      if i + |keyword| <= |text| {
        assert text[i + j] in text;
        assert text[i..i + |keyword|][j] == text[i + j];
      }
    }
  }

  /**
   * A keyword without a space occurs in `x + " " + y` exactly when it occurs
   * in `x` or in `y`: no occurrence can straddle the space.
   */
  lemma IncludesAcrossSpace(x: string, y: string, keyword: string)
    requires ' ' !in keyword
    ensures Includes(x + " " + y, keyword) <==> Includes(x, keyword) || Includes(y, keyword)
  {
    var xy := x + " " + y;
    var n := |keyword|;
    forall i: nat | i <= |xy|
      ensures OccursAt(xy, keyword, i) ==> Includes(x, keyword) || Includes(y, keyword)
    {
      if i + n <= |x| {
        assert x[i..i + n] == xy[i..i + n];
        assert OccursAt(xy, keyword, i) ==> OccursAt(x, keyword, i);
      } else if i > |x| {
        if i + n <= |xy| {
          assert y[i - |x| - 1..i - |x| - 1 + n] == xy[i..i + n];
        }
        assert OccursAt(xy, keyword, i) ==> OccursAt(y, keyword, i - |x| - 1);
      } else if i + n <= |xy| {
        assert xy[i..i + n][|x| - i] == ' ';
        assert keyword[|x| - i] in keyword;
      }
    }
    forall i: nat | i <= |x| && OccursAt(x, keyword, i)
      ensures OccursAt(xy, keyword, i)
    {
      assert xy[i..i + n] == x[i..i + n];
    }
    forall i: nat | i <= |y| && OccursAt(y, keyword, i)
      ensures OccursAt(xy, keyword, |x| + 1 + i)
    {
      assert xy[|x| + 1 + i..|x| + 1 + i + n] == y[i..i + n];
    }
  }

  lemma {:induction false} LowerAppend(x: string, y: string)
    ensures Lower(x + y) == Lower(x) + Lower(y)
  {
    if x != [] {
      assert (x + y)[1..] == x[1..] + y;
      LowerAppend(x[1..], y);
    }
  }

  lemma LowerAppendWords(s: string, words: string)
    ensures Lower(s + " " + words) == Lower(s) + " " + Lower(words)
  {
    LowerAppend(s + " ", words);
    LowerAppend(s, " ");
    assert Lower(" ") == " ";
  }

  // ---------------------------------------------------------------------------
  // Properties of the classifier

  /** Lower-casing twice changes nothing more than lower-casing once. */
  lemma {:induction false} LowerIdempotent(s: string)
    ensures Lower(Lower(s)) == Lower(s)
    ensures IsLower(Lower(s))
  {
    if s != [] {
      LowerIdempotent(s[1..]);
      assert Lower(s) == [LowerChar(s[0])] + Lower(s[1..]);
    }
  }

  /** Matching ignores case: classifying a prompt equals classifying its lower-cased form. */
  lemma ClassifyIgnoresCase(s: string)
    ensures Classify(Lower(s)) == Classify(s)
  {
    LowerIdempotent(s);
  }

  /**
   * The classifier is total and `features` is always empty; the empty prompt
   * gives the defaults cube, gray and size 1.
   */
  lemma ClassifyDefaults(s: string)
    ensures Classify(s).features == []
    ensures Classify(s).size in {0.5, 1.0, 2.0}
    ensures Classify("") == Details(Cube, Gray, 1.0, [])
  {
    var empty: string := [];
    assert forall k: string | k != [] :: !Includes(empty, k);
    assert Lower(empty) == empty;
    assert NoColorKeyword(empty) && NoShapeKeyword(empty) && NoSizeKeyword(empty);
  }

  /**
   * Colour is the value of the first keyword, in table order, that occurs in
   * the lower-cased text; gray when none occurs.
   */
  lemma ColorIsFirstTableMatch(lowerText: string, k: nat)
    requires k < |ColorKeywords| && Includes(lowerText, ColorKeywords[k].0)
    requires forall j | 0 <= j < k :: !Includes(lowerText, ColorKeywords[j].0)
    ensures ColorOf(lowerText) == ColorKeywords[k].1
  {
  }

  lemma ColorDefault(lowerText: string)
    requires forall j | 0 <= j < |ColorKeywords| :: !Includes(lowerText, ColorKeywords[j].0)
    ensures ColorOf(lowerText) == Gray
  {
  }

  /** Two texts that contain the same table keywords from `from` on have the same first hit. */
  lemma {:induction false} FirstHitDependsOnlyOnKeywords(table: seq<(string, Color)>, a: string, b: string, from: nat)
    requires from <= |table|
    requires forall j | from <= j < |table| :: Includes(a, table[j].0) == Includes(b, table[j].0)
    ensures FirstHitFrom(table, a, from) == FirstHitFrom(table, b, from)
    decreases |table| - from
  {
    if from < |table| && !Includes(a, table[from].0) {
      FirstHitDependsOnlyOnKeywords(table, a, b, from + 1);
    }
  }

  /** Colour depends only on which colour keywords occur, so the other scans cannot move it. */
  lemma ColorDependsOnlyOnColorKeywords(a: string, b: string)
    requires forall j | 0 <= j < |ColorKeywords| :: Includes(a, ColorKeywords[j].0) == Includes(b, ColorKeywords[j].0)
    ensures ColorOf(a) == ColorOf(b)
  {
    FirstHitDependsOnlyOnKeywords(ColorKeywords, a, b, 0);
  }

  /**
   * Shape is decided by the first rule, in the order house/building,
   * car/vehicle, tree/plant, sphere/ball, cylinder/tube, with one synonym
   * occurring; cube when none does.
   */
  lemma ShapeRules(t: string)
    ensures ShapeOf(t) == House <==> Includes(t, "house") || Includes(t, "building")
    ensures ShapeOf(t) == Car <==>
      !(Includes(t, "house") || Includes(t, "building")) && (Includes(t, "car") || Includes(t, "vehicle"))
    ensures ShapeOf(t) == Tree <==>
      !(Includes(t, "house") || Includes(t, "building") || Includes(t, "car") || Includes(t, "vehicle")) &&
      (Includes(t, "tree") || Includes(t, "plant"))
    ensures ShapeOf(t) == Sphere <==>
      !(Includes(t, "house") || Includes(t, "building") || Includes(t, "car") || Includes(t, "vehicle") ||
        Includes(t, "tree") || Includes(t, "plant")) &&
      (Includes(t, "sphere") || Includes(t, "ball"))
    ensures ShapeOf(t) == Cylinder <==>
      !(Includes(t, "house") || Includes(t, "building") || Includes(t, "car") || Includes(t, "vehicle") ||
        Includes(t, "tree") || Includes(t, "plant") || Includes(t, "sphere") || Includes(t, "ball")) &&
      (Includes(t, "cylinder") || Includes(t, "tube"))
    ensures ShapeOf(t) == Cube <==> forall w | w in ShapeKeywords :: !Includes(t, w)
  {
  }

  /** Every keyword the shape rules test, in rule order. */
  const ShapeKeywords: seq<string> :=
    ["house", "building", "car", "vehicle", "tree", "plant", "sphere", "ball", "cylinder", "tube"]

  /** Every keyword the size rule tests. */
  const SizeKeywords: seq<string> := ["large", "big", "small", "tiny"]

  /** No keyword of the colour table occurs in the text. */
  predicate NoColorKeyword(t: string)
  {
    forall j | 0 <= j < |ColorKeywords| :: !Includes(t, ColorKeywords[j].0)
  }

  /** No keyword of the shape rules occurs in the text. */
  predicate NoShapeKeyword(t: string)
  {
    forall w | w in ShapeKeywords :: !Includes(t, w)
  }

  /** No keyword of the size rule occurs in the text. */
  predicate NoSizeKeyword(t: string)
  {
    forall w | w in SizeKeywords :: !Includes(t, w)
  }

  /** Size is 2 when "large" or "big" occurs (even beside "small" or "tiny"), else 0.5 for those, else 1. */
  lemma SizeRules(t: string)
    ensures SizeOf(t) == 2.0 <==> Includes(t, "large") || Includes(t, "big")
    ensures SizeOf(t) == 0.5 <==>
      !(Includes(t, "large") || Includes(t, "big")) && (Includes(t, "small") || Includes(t, "tiny"))
    ensures SizeOf(t) == 1.0 <==> forall w | w in SizeKeywords :: !Includes(t, w)
  {
  }

  /** Shape depends only on which shape keywords occur. */
  lemma ShapeDependsOnlyOnShapeKeywords(a: string, b: string)
    requires forall w | w in ShapeKeywords :: Includes(a, w) == Includes(b, w)
    ensures ShapeOf(a) == ShapeOf(b)
  {
    // One keyword at a time: a quantified form is far costlier for the solver.
    assert Includes(a, ShapeKeywords[0]) == Includes(b, ShapeKeywords[0]);
    assert Includes(a, ShapeKeywords[1]) == Includes(b, ShapeKeywords[1]);
    assert Includes(a, ShapeKeywords[2]) == Includes(b, ShapeKeywords[2]);
    assert Includes(a, ShapeKeywords[3]) == Includes(b, ShapeKeywords[3]);
    assert Includes(a, ShapeKeywords[4]) == Includes(b, ShapeKeywords[4]);
    assert Includes(a, ShapeKeywords[5]) == Includes(b, ShapeKeywords[5]);
    assert Includes(a, ShapeKeywords[6]) == Includes(b, ShapeKeywords[6]);
    assert Includes(a, ShapeKeywords[7]) == Includes(b, ShapeKeywords[7]);
    assert Includes(a, ShapeKeywords[8]) == Includes(b, ShapeKeywords[8]);
    assert Includes(a, ShapeKeywords[9]) == Includes(b, ShapeKeywords[9]);
  }

  /** Size depends only on which size keywords occur. */
  lemma SizeDependsOnlyOnSizeKeywords(a: string, b: string)
    requires forall w | w in SizeKeywords :: Includes(a, w) == Includes(b, w)
    ensures SizeOf(a) == SizeOf(b)
  {
  }

  /**
   * The three scans are independent: appending, after a space, words that
   * hold no colour keyword leaves the colour as it was, whatever shape or
   * size words they add.
   */
  lemma ColorUnchangedByAppendedWords(s: string, words: string)
    requires NoColorKeyword(Lower(words))
    ensures Classify(s + " " + words).color == Classify(s).color
  {
    LowerAppendWords(s, words);
    ColorOfAppend(Lower(s), Lower(words));
  }

  lemma ColorOfAppend(a: string, b: string)
    requires NoColorKeyword(b)
    ensures ColorOf(a + " " + b) == ColorOf(a)
  {
    forall j | 0 <= j < |ColorKeywords|
      ensures Includes(a + " " + b, ColorKeywords[j].0) == Includes(a, ColorKeywords[j].0)
    {
      IncludesAcrossSpace(a, b, ColorKeywords[j].0);
    }
    ColorDependsOnlyOnColorKeywords(a + " " + b, a);
  }

  /** Appending words that hold no shape keyword leaves the shape as it was. */
  lemma ShapeUnchangedByAppendedWords(s: string, words: string)
    requires NoShapeKeyword(Lower(words))
    ensures Classify(s + " " + words).shape == Classify(s).shape
  {
    LowerAppendWords(s, words);
    ShapeOfAppend(Lower(s), Lower(words));
  }

  lemma ShapeOfAppend(a: string, b: string)
    requires NoShapeKeyword(b)
    ensures ShapeOf(a + " " + b) == ShapeOf(a)
  {
    forall w | w in ShapeKeywords
      ensures Includes(a + " " + b, w) == Includes(a, w)
    {
      assert ' ' !in w;
      IncludesAcrossSpace(a, b, w);
    }
    ShapeDependsOnlyOnShapeKeywords(a + " " + b, a);
  }

  /** Appending words that hold no size keyword leaves the size as it was. */
  lemma SizeUnchangedByAppendedWords(s: string, words: string)
    requires NoSizeKeyword(Lower(words))
    ensures Classify(s + " " + words).size == Classify(s).size
  {
    LowerAppendWords(s, words);
    SizeOfAppend(Lower(s), Lower(words));
  }

  lemma SizeOfAppend(a: string, b: string)
    requires NoSizeKeyword(b)
    ensures SizeOf(a + " " + b) == SizeOf(a)
  {
    forall w | w in SizeKeywords
      ensures Includes(a + " " + b, w) == Includes(a, w)
    {
      assert ' ' !in w;
      IncludesAcrossSpace(a, b, w);
    }
    SizeDependsOnlyOnSizeKeywords(a + " " + b, a);
  }

  /**
   * Inserting, between two spaces, words that hold no colour keyword leaves
   * the colour as it was, wherever in the prompt they go.
   */
  lemma ColorUnchangedByInsertedWords(x: string, words: string, y: string)
    requires NoColorKeyword(Lower(words))
    ensures Classify(x + " " + words + " " + y).color == Classify(x + " " + y).color
  {
    LowerInsertWords(x, words, y);
    ColorOfInsert(Lower(x), Lower(words), Lower(y));
  }

  lemma ColorOfInsert(a: string, b: string, c: string)
    requires NoColorKeyword(b)
    ensures ColorOf(a + " " + (b + " " + c)) == ColorOf(a + " " + c)
  {
    forall j | 0 <= j < |ColorKeywords|
      ensures Includes(a + " " + (b + " " + c), ColorKeywords[j].0) == Includes(a + " " + c, ColorKeywords[j].0)
    {
      IncludesAcrossSpace(a, b + " " + c, ColorKeywords[j].0);
      IncludesAcrossSpace(b, c, ColorKeywords[j].0);
      IncludesAcrossSpace(a, c, ColorKeywords[j].0);
    }
    ColorDependsOnlyOnColorKeywords(a + " " + (b + " " + c), a + " " + c);
  }

  /** Inserting words that hold no shape keyword leaves the shape as it was. */
  lemma ShapeUnchangedByInsertedWords(x: string, words: string, y: string)
    requires NoShapeKeyword(Lower(words))
    ensures Classify(x + " " + words + " " + y).shape == Classify(x + " " + y).shape
  {
    LowerInsertWords(x, words, y);
    ShapeOfInsert(Lower(x), Lower(words), Lower(y));
  }

  lemma ShapeOfInsert(a: string, b: string, c: string)
    requires NoShapeKeyword(b)
    ensures ShapeOf(a + " " + (b + " " + c)) == ShapeOf(a + " " + c)
  {
    forall w | w in ShapeKeywords
      ensures Includes(a + " " + (b + " " + c), w) == Includes(a + " " + c, w)
    {
      assert ' ' !in w;
      IncludesAcrossSpace(a, b + " " + c, w);
      IncludesAcrossSpace(b, c, w);
      IncludesAcrossSpace(a, c, w);
    }
    ShapeDependsOnlyOnShapeKeywords(a + " " + (b + " " + c), a + " " + c);
  }

  /** Inserting words that hold no size keyword leaves the size as it was. */
  lemma SizeUnchangedByInsertedWords(x: string, words: string, y: string)
    requires NoSizeKeyword(Lower(words))
    ensures Classify(x + " " + words + " " + y).size == Classify(x + " " + y).size
  {
    LowerInsertWords(x, words, y);
    SizeOfInsert(Lower(x), Lower(words), Lower(y));
  }

  lemma SizeOfInsert(a: string, b: string, c: string)
    requires NoSizeKeyword(b)
    ensures SizeOf(a + " " + (b + " " + c)) == SizeOf(a + " " + c)
  {
    forall w | w in SizeKeywords
      ensures Includes(a + " " + (b + " " + c), w) == Includes(a + " " + c, w)
    {
      assert ' ' !in w;
      IncludesAcrossSpace(a, b + " " + c, w);
      IncludesAcrossSpace(b, c, w);
      IncludesAcrossSpace(a, c, w);
    }
    SizeDependsOnlyOnSizeKeywords(a + " " + (b + " " + c), a + " " + c);
  }

  /**
   * Putting, before a space at the front of the prompt, words that hold no
   * colour keyword leaves the colour as it was.
   */
  lemma ColorUnchangedByPrependedWords(words: string, y: string)
    requires NoColorKeyword(Lower(words))
    ensures Classify(words + " " + y).color == Classify(y).color
  {
    LowerAppendWords(words, y);
    ColorOfPrepend(Lower(words), Lower(y));
  }

  lemma ColorOfPrepend(b: string, c: string)
    requires NoColorKeyword(b)
    ensures ColorOf(b + " " + c) == ColorOf(c)
  {
    forall j | 0 <= j < |ColorKeywords|
      ensures Includes(b + " " + c, ColorKeywords[j].0) == Includes(c, ColorKeywords[j].0)
    {
      IncludesAcrossSpace(b, c, ColorKeywords[j].0);
    }
    ColorDependsOnlyOnColorKeywords(b + " " + c, c);
  }

  /** Putting words that hold no shape keyword in front, before a space, leaves the shape as it was. */
  lemma ShapeUnchangedByPrependedWords(words: string, y: string)
    requires NoShapeKeyword(Lower(words))
    ensures Classify(words + " " + y).shape == Classify(y).shape
  {
    LowerAppendWords(words, y);
    ShapeOfPrepend(Lower(words), Lower(y));
  }

  lemma ShapeOfPrepend(b: string, c: string)
    requires NoShapeKeyword(b)
    ensures ShapeOf(b + " " + c) == ShapeOf(c)
  {
    forall w | w in ShapeKeywords
      ensures Includes(b + " " + c, w) == Includes(c, w)
    {
      assert ' ' !in w;
      IncludesAcrossSpace(b, c, w);
    }
    ShapeDependsOnlyOnShapeKeywords(b + " " + c, c);
  }

  /** Putting words that hold no size keyword in front, before a space, leaves the size as it was. */
  lemma SizeUnchangedByPrependedWords(words: string, y: string)
    requires NoSizeKeyword(Lower(words))
    ensures Classify(words + " " + y).size == Classify(y).size
  {
    LowerAppendWords(words, y);
    SizeOfPrepend(Lower(words), Lower(y));
  }

  lemma SizeOfPrepend(b: string, c: string)
    requires NoSizeKeyword(b)
    ensures SizeOf(b + " " + c) == SizeOf(c)
  {
    forall w | w in SizeKeywords
      ensures Includes(b + " " + c, w) == Includes(c, w)
    {
      assert ' ' !in w;
      IncludesAcrossSpace(b, c, w);
    }
    SizeDependsOnlyOnSizeKeywords(b + " " + c, c);
  }

  lemma LowerInsertWords(x: string, words: string, y: string)
    ensures Lower(x + " " + words + " " + y) == Lower(x) + " " + (Lower(words) + " " + Lower(y))
    ensures Lower(x + " " + y) == Lower(x) + " " + Lower(y)
  {
    assert x + " " + words + " " + y == x + " " + (words + " " + y);
    LowerAppendWords(x, words + " " + y);
    LowerAppendWords(words, y);
    LowerAppendWords(x, y);
  }

  // ---------------------------------------------------------------------------
  // Worked examples of the rule order

  lemma {:induction false} LowerOfLowerCase(s: string)
    requires IsLower(s)
    ensures Lower(s) == s
  {
    if s != [] {
      assert IsLower(s[1..]) by {
        forall i | 0 <= i < |s[1..]| ensures LowerChar(s[1..][i]) == s[1..][i] {
          assert s[1..][i] == s[i + 1];
        }
      }
      LowerOfLowerCase(s[1..]);
    }
  }

  /** Table order beats text order: the colour of "blue and red" is red, because red comes first in the table. */
  lemma ExampleTableOrderWins()
    ensures ColorOf("blue and red") == Red
  {
    assert "blue and red" == "blue and " + "red";
    assert OccursAt("blue and red", "red", 9);
    ColorIsFirstTableMatch("blue and red", 0);
  }

  /** Rule order beats text order: the shape of "a car near a building" is a house. */
  lemma ExampleRuleOrderWins()
    ensures ShapeOf("a car near a building") == House
  {
    assert "a car near a building" == "a car near a " + "building";
    assert OccursAt("a car near a building", "building", 13);
  }

  /** Matching is by substring: the shape of "cartoon" is a car. */
  lemma ExampleSubstringMatch()
    ensures ShapeOf("cartoon") == Car
  {
    MissingChar("cartoon", "house", 'h');
    assert "cartoon" == "car" + "toon";
    assert OccursAt("cartoon", "car", 0);
  }

  /** Large beats small: the size of "a big tiny box" is 2. */
  lemma ExampleLargeBeatsSmall()
    ensures SizeOf("a big tiny box") == 2.0
  {
    assert "a big tiny box" == "a " + "big" + " tiny box";
    assert OccursAt("a big tiny box", "big", 2);
  }

  // ---------------------------------------------------------------------------
  // The analysis record of `handleGenerate`

  /** `s.split(sep)`: the pieces between consecutive separators, always at least one. */
  function Split(s: string, sep: char): (parts: seq<string>)
    ensures |parts| >= 1
  {
    if s == [] then [[]]
    else
      var rest := Split(s[1..], sep);
      if s[0] == sep then [[]] + rest else [[s[0]] + rest[0]] + rest[1..]
  }

  /** `parts.join(sep)`: the inverse of `Split`. */
  function Join(parts: seq<string>, sep: char): string
    requires |parts| >= 1
  {
    if |parts| == 1 then parts[0] else parts[0] + [sep] + Join(parts[1..], sep)
  }

  /** Splitting then joining on the same separator gives back the text, and no piece holds the separator. */
  lemma {:induction false} SplitJoin(s: string, sep: char)
    ensures Join(Split(s, sep), sep) == s
    ensures forall k | 0 <= k < |Split(s, sep)| :: sep !in Split(s, sep)[k]
  {
    if s != [] {
      var rest := Split(s[1..], sep);
      SplitJoin(s[1..], sep);
      if s[0] == sep {
        assert Split(s, sep) == [[]] + rest;
        assert Split(s, sep)[1..] == rest;
        assert s == [sep] + s[1..];
      } else {
        var parts := Split(s, sep);
        assert parts == [[s[0]] + rest[0]] + rest[1..];
        if |rest| == 1 {
          assert s == [s[0]] + s[1..];
        } else {
          assert parts[1..] == rest[1..];
          assert s == [s[0]] + s[1..];
        }
        forall k | 0 <= k < |parts| ensures sep !in parts[k] {
          if k > 0 {
            assert parts[k] == rest[k];
          }
        }
      }
    }
  }

  /**
   * The record `handleGenerate` stores for a prompt: nothing for the empty
   * prompt (the handler returns early), else the lower-cased prompt split on
   * single spaces, 'complex' beyond 100 characters, and the classified shape.
   */
  function Analyze(prompt: string): (r: Option<Analysis>)
    ensures r.None? <==> prompt == ""
    ensures r.Some? ==> |r.value.keywords| >= 1
  {
    if prompt == "" then None
    else
      Some(Analysis(
        keywords := Split(Lower(prompt), ' '),
        complexity := if |prompt| > 100 then Complex else Simple,
        modelType := Classify(prompt).shape))
  }

  lemma AnalysisRecord(prompt: string)
    ensures prompt == "" <==> Analyze(prompt).None?
    ensures Analyze(prompt).Some? ==> Analyze(prompt).value.modelType == Classify(prompt).shape
    ensures Analyze(prompt).Some? ==> (Analyze(prompt).value.complexity == Complex <==> |prompt| > 100)
    ensures Analyze(prompt).Some? ==> Join(Analyze(prompt).value.keywords, ' ') == Lower(prompt)
    ensures Analyze(prompt).Some? ==>
      forall k | 0 <= k < |Analyze(prompt).value.keywords| :: ' ' !in Analyze(prompt).value.keywords[k]
  {
    SplitJoin(Lower(prompt), ' ');
  }

}
