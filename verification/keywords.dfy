/**
 * The keyword lists of the three scans share no keyword: no colour keyword
 * occurs inside a shape or size keyword, and so on in every direction. With
 * the insertion lemmas of `App` this makes the three scans independent: a
 * shape or size keyword added to a prompt as a separate, space-delimited word
 * never changes its colour, and so on. A keyword glued to its neighbours can
 * change it ("car" before "ed" makes "cared", which holds "red").
 */
module Keywords {
  import opened App

  /** The keywords of the colour table, in table order. */
  const ColorWords: seq<string> := seq(|ColorKeywords|, j requires 0 <= j < |ColorKeywords| => ColorKeywords[j].0)

  /** A text that lacks every word of `ColorWords` lacks every keyword of the colour table. */
  lemma LacksColorWords(text: string)
    requires forall j | 0 <= j < |ColorWords| :: !Includes(text, ColorWords[j])
    ensures NoColorKeyword(text)
  {
    forall j | 0 <= j < |ColorKeywords| ensures !Includes(text, ColorKeywords[j].0) {
      assert ColorWords[j] == ColorKeywords[j].0;
    }
  }

  /**
   * A text lacks every keyword of a list when, for each keyword, the witness
   * character at the same position is in the keyword and not in the text (or
   * the keyword is already known to be absent).
   */
  lemma LacksKeywords(text: string, keywords: seq<string>, witnesses: string)
    requires |witnesses| == |keywords|
    requires forall j | 0 <= j < |keywords| ::
      (witnesses[j] in keywords[j] && witnesses[j] !in text) || !Includes(text, keywords[j])
    ensures forall j | 0 <= j < |keywords| :: !Includes(text, keywords[j])
  {
    forall j | 0 <= j < |keywords| ensures !Includes(text, keywords[j]) {
      if witnesses[j] in keywords[j] && witnesses[j] !in text {
        MissingChar(text, keywords[j], witnesses[j]);
      }
    }
  }

  // ---------------------------------------------------------------------------
  // Each keyword holds no keyword of the other two scans. There is one lemma
  // per keyword and direction, so that every proof obligation stays small.
  // A witness string holds one character per keyword it rules out, in list
  // order; a space marks a keyword ruled out by the direct proof just above.

  // No colour keyword in a shape or size keyword. Witness order:
  // red, blue, green, yellow, purple, orange, black, white, gray, grey.

  lemma HouseHoldsNoColorKeyword()
    ensures NoColorKeyword("house")
  {
    LacksKeywords("house", ColorWords, "rbgyprbwgg");
    LacksColorWords("house");
  }

  lemma BuildingHoldsNoColorKeyword()
    ensures NoColorKeyword("building")
  {
    LacksKeywords("building", ColorWords, "rerypoawrr");
    LacksColorWords("building");
  }

  lemma CarHoldsNoColorKeyword()
    ensures NoColorKeyword("car")
  {
    LacksKeywords("car", ColorWords, "ebgypobwgg");
    LacksColorWords("car");
  }

  lemma VehicleHoldsNoColorKeyword()
    ensures NoColorKeyword("vehicle")
  {
    LacksKeywords("vehicle", ColorWords, "rbgypobwgg");
    LacksColorWords("vehicle");
  }

  lemma TreeHoldsNoColorKeyword()
    ensures NoColorKeyword("tree")
  {
    LacksKeywords("tree", ColorWords, "dbgypobwgg");
    LacksColorWords("tree");
  }

  lemma PlantHoldsNoColorKeyword()
    ensures NoColorKeyword("plant")
  {
    LacksKeywords("plant", ColorWords, "rbgyuobwgg");
    LacksColorWords("plant");
  }

  lemma SphereHoldsNoColorKeyword()
    ensures NoColorKeyword("sphere")
  {
    LacksKeywords("sphere", ColorWords, "dbgyuobwgg");
    LacksColorWords("sphere");
  }

  lemma BallHoldsNoColorKeyword()
    ensures NoColorKeyword("ball")
  {
    LacksKeywords("ball", ColorWords, "rugypocwgg");
    LacksColorWords("ball");
  }

  lemma CylinderHoldsNoColorKeyword()
    ensures NoColorKeyword("cylinder")
  {
    assert !Includes("cylinder", "red") by {
      var t := "cylinder";
      forall i: nat | i <= |t| ensures !OccursAt(t, "red", i) {
        if i + 3 <= |t| { assert t[i..i + 3][0] == t[i]; }
      }
    }
    LacksKeywords("cylinder", ColorWords, " bgopobwgg");
    LacksColorWords("cylinder");
  }

  lemma TubeHoldsNoColorKeyword()
    ensures NoColorKeyword("tube")
  {
    LacksKeywords("tube", ColorWords, "rlgypolwgg");
    LacksColorWords("tube");
  }

  lemma LargeHoldsNoColorKeyword()
    ensures NoColorKeyword("large")
  {
    LacksKeywords("large", ColorWords, "dbnypobwyy");
    LacksColorWords("large");
  }

  lemma BigHoldsNoColorKeyword()
    ensures NoColorKeyword("big")
  {
    LacksKeywords("big", ColorWords, "rlrypolwrr");
    LacksColorWords("big");
  }

  lemma SmallHoldsNoColorKeyword()
    ensures NoColorKeyword("small")
  {
    LacksKeywords("small", ColorWords, "rbgypobwgg");
    LacksColorWords("small");
  }

  lemma TinyHoldsNoColorKeyword()
    ensures NoColorKeyword("tiny")
  {
    LacksKeywords("tiny", ColorWords, "rbgepobwgg");
    LacksColorWords("tiny");
  }

  // No shape keyword in a colour or size keyword. Witness order:
  // house, building, car, vehicle, tree, plant, sphere, ball, cylinder, tube.

  lemma RedHoldsNoShapeKeyword()
    ensures NoShapeKeyword("red")
  {
    LacksKeywords("red", ShapeKeywords, "hbcvtpsbct");
  }

  lemma BlueHoldsNoShapeKeyword()
    ensures NoShapeKeyword("blue")
  {
    LacksKeywords("blue", ShapeKeywords, "hicvtpsact");
  }

  lemma GreenHoldsNoShapeKeyword()
    ensures NoShapeKeyword("green")
  {
    LacksKeywords("green", ShapeKeywords, "hbcvtpsbct");
  }

  lemma YellowHoldsNoShapeKeyword()
    ensures NoShapeKeyword("yellow")
  {
    LacksKeywords("yellow", ShapeKeywords, "hbcvtpsbct");
  }

  lemma PurpleHoldsNoShapeKeyword()
    ensures NoShapeKeyword("purple")
  {
    LacksKeywords("purple", ShapeKeywords, "hbcvtasbct");
  }

  lemma OrangeHoldsNoShapeKeyword()
    ensures NoShapeKeyword("orange")
  {
    LacksKeywords("orange", ShapeKeywords, "hbcvtpsbct");
  }

  lemma BlackHoldsNoShapeKeyword()
    ensures NoShapeKeyword("black")
  {
    assert !Includes("black", "ball") by {
      var t := "black";
      forall i: nat | i <= |t| ensures !OccursAt(t, "ball", i) {
        if i + 4 <= |t| { assert t[i..i + 4][2] == t[i + 2]; }
      }
    }
    LacksKeywords("black", ShapeKeywords, "hurvtps yt");
  }

  lemma WhiteHoldsNoShapeKeyword()
    ensures NoShapeKeyword("white")
  {
    LacksKeywords("white", ShapeKeywords, "obcvrpsbcu");
  }

  lemma GrayHoldsNoShapeKeyword()
    ensures NoShapeKeyword("gray")
  {
    LacksKeywords("gray", ShapeKeywords, "hbcvtpsbct");
  }

  lemma GreyHoldsNoShapeKeyword()
    ensures NoShapeKeyword("grey")
  {
    LacksKeywords("grey", ShapeKeywords, "hbcvtpsbct");
  }

  lemma LargeHoldsNoShapeKeyword()
    ensures NoShapeKeyword("large")
  {
    LacksKeywords("large", ShapeKeywords, "hbcvtpsbct");
  }

  lemma BigHoldsNoShapeKeyword()
    ensures NoShapeKeyword("big")
  {
    LacksKeywords("big", ShapeKeywords, "hucvtpsact");
  }

  lemma SmallHoldsNoShapeKeyword()
    ensures NoShapeKeyword("small")
  {
    LacksKeywords("small", ShapeKeywords, "hbcvtppbct");
  }

  lemma TinyHoldsNoShapeKeyword()
    ensures NoShapeKeyword("tiny")
  {
    LacksKeywords("tiny", ShapeKeywords, "hbcvrpsbcu");
  }

  // No size keyword in a colour or shape keyword. Witness order:
  // large, big, small, tiny.

  lemma RedHoldsNoSizeKeyword()
    ensures NoSizeKeyword("red")
  {
    LacksKeywords("red", SizeKeywords, "lbst");
  }

  lemma BlueHoldsNoSizeKeyword()
    ensures NoSizeKeyword("blue")
  {
    LacksKeywords("blue", SizeKeywords, "aist");
  }

  lemma GreenHoldsNoSizeKeyword()
    ensures NoSizeKeyword("green")
  {
    LacksKeywords("green", SizeKeywords, "lbst");
  }

  lemma YellowHoldsNoSizeKeyword()
    ensures NoSizeKeyword("yellow")
  {
    LacksKeywords("yellow", SizeKeywords, "abst");
  }

  lemma PurpleHoldsNoSizeKeyword()
    ensures NoSizeKeyword("purple")
  {
    LacksKeywords("purple", SizeKeywords, "abst");
  }

  lemma OrangeHoldsNoSizeKeyword()
    ensures NoSizeKeyword("orange")
  {
    LacksKeywords("orange", SizeKeywords, "lbst");
  }

  lemma BlackHoldsNoSizeKeyword()
    ensures NoSizeKeyword("black")
  {
    LacksKeywords("black", SizeKeywords, "rist");
  }

  lemma WhiteHoldsNoSizeKeyword()
    ensures NoSizeKeyword("white")
  {
    LacksKeywords("white", SizeKeywords, "lbsn");
  }

  lemma GrayHoldsNoSizeKeyword()
    ensures NoSizeKeyword("gray")
  {
    LacksKeywords("gray", SizeKeywords, "lbst");
  }

  lemma GreyHoldsNoSizeKeyword()
    ensures NoSizeKeyword("grey")
  {
    LacksKeywords("grey", SizeKeywords, "lbst");
  }

  lemma HouseHoldsNoSizeKeyword()
    ensures NoSizeKeyword("house")
  {
    LacksKeywords("house", SizeKeywords, "lbmt");
  }

  lemma BuildingHoldsNoSizeKeyword()
    ensures NoSizeKeyword("building")
  {
    assert !Includes("building", "big") by {
      var t := "building";
      forall i: nat | i <= |t| ensures !OccursAt(t, "big", i) {
        if i + 3 <= |t| { assert t[i..i + 3][0] == t[i]; assert t[i..i + 3][1] == t[i + 1]; }
      }
    }
    LacksKeywords("building", SizeKeywords, "a st");
  }

  lemma CarHoldsNoSizeKeyword()
    ensures NoSizeKeyword("car")
  {
    LacksKeywords("car", SizeKeywords, "lbst");
  }

  lemma VehicleHoldsNoSizeKeyword()
    ensures NoSizeKeyword("vehicle")
  {
    LacksKeywords("vehicle", SizeKeywords, "abst");
  }

  lemma TreeHoldsNoSizeKeyword()
    ensures NoSizeKeyword("tree")
  {
    LacksKeywords("tree", SizeKeywords, "lbsi");
  }

  lemma PlantHoldsNoSizeKeyword()
    ensures NoSizeKeyword("plant")
  {
    LacksKeywords("plant", SizeKeywords, "rbsi");
  }

  lemma SphereHoldsNoSizeKeyword()
    ensures NoSizeKeyword("sphere")
  {
    LacksKeywords("sphere", SizeKeywords, "lbmt");
  }

  lemma BallHoldsNoSizeKeyword()
    ensures NoSizeKeyword("ball")
  {
    LacksKeywords("ball", SizeKeywords, "rist");
  }

  lemma CylinderHoldsNoSizeKeyword()
    ensures NoSizeKeyword("cylinder")
  {
    LacksKeywords("cylinder", SizeKeywords, "abst");
  }

  lemma TubeHoldsNoSizeKeyword()
    ensures NoSizeKeyword("tube")
  {
    LacksKeywords("tube", SizeKeywords, "lisi");
  }

  // ---------------------------------------------------------------------------
  // The three keyword lists are disjoint in every direction

  /** No shape or size keyword holds a colour keyword. */
  lemma ShapeAndSizeWordsHoldNoColorKeyword()
    ensures forall w | w in ShapeKeywords + SizeKeywords :: NoColorKeyword(w)
  {
    HouseHoldsNoColorKeyword();
    BuildingHoldsNoColorKeyword();
    CarHoldsNoColorKeyword();
    VehicleHoldsNoColorKeyword();
    TreeHoldsNoColorKeyword();
    PlantHoldsNoColorKeyword();
    SphereHoldsNoColorKeyword();
    BallHoldsNoColorKeyword();
    CylinderHoldsNoColorKeyword();
    TubeHoldsNoColorKeyword();
    LargeHoldsNoColorKeyword();
    BigHoldsNoColorKeyword();
    SmallHoldsNoColorKeyword();
    TinyHoldsNoColorKeyword();
  }

  /** No colour or size keyword holds a shape keyword. */
  lemma ColorAndSizeWordsHoldNoShapeKeyword()
    ensures forall j | 0 <= j < |ColorKeywords| :: NoShapeKeyword(ColorKeywords[j].0)
    ensures forall w | w in SizeKeywords :: NoShapeKeyword(w)
  {
    RedHoldsNoShapeKeyword();
    BlueHoldsNoShapeKeyword();
    GreenHoldsNoShapeKeyword();
    YellowHoldsNoShapeKeyword();
    PurpleHoldsNoShapeKeyword();
    OrangeHoldsNoShapeKeyword();
    BlackHoldsNoShapeKeyword();
    WhiteHoldsNoShapeKeyword();
    GrayHoldsNoShapeKeyword();
    GreyHoldsNoShapeKeyword();
    LargeHoldsNoShapeKeyword();
    BigHoldsNoShapeKeyword();
    SmallHoldsNoShapeKeyword();
    TinyHoldsNoShapeKeyword();
  }

  /** No colour or shape keyword holds a size keyword. */
  lemma ColorAndShapeWordsHoldNoSizeKeyword()
    ensures forall j | 0 <= j < |ColorKeywords| :: NoSizeKeyword(ColorKeywords[j].0)
    ensures forall w | w in ShapeKeywords :: NoSizeKeyword(w)
  {
    RedHoldsNoSizeKeyword();
    BlueHoldsNoSizeKeyword();
    GreenHoldsNoSizeKeyword();
    YellowHoldsNoSizeKeyword();
    PurpleHoldsNoSizeKeyword();
    OrangeHoldsNoSizeKeyword();
    BlackHoldsNoSizeKeyword();
    WhiteHoldsNoSizeKeyword();
    GrayHoldsNoSizeKeyword();
    GreyHoldsNoSizeKeyword();
    HouseHoldsNoSizeKeyword();
    BuildingHoldsNoSizeKeyword();
    CarHoldsNoSizeKeyword();
    VehicleHoldsNoSizeKeyword();
    TreeHoldsNoSizeKeyword();
    PlantHoldsNoSizeKeyword();
    SphereHoldsNoSizeKeyword();
    BallHoldsNoSizeKeyword();
    CylinderHoldsNoSizeKeyword();
    TubeHoldsNoSizeKeyword();
  }

  // Every keyword is already lower-case, so lower-casing it changes nothing.

  lemma ColorKeywordsAreLowerCase()
    ensures forall j | 0 <= j < |ColorKeywords| :: IsLower(ColorKeywords[j].0)
  {
  }

  lemma ShapeKeywordsAreLowerCase()
    ensures forall w | w in ShapeKeywords :: IsLower(w)
  {
  }

  lemma SizeKeywordsAreLowerCase()
    ensures forall w | w in SizeKeywords :: IsLower(w)
  {
  }

  // ---------------------------------------------------------------------------
  // The scans are independent

  /**
   * A shape or size keyword added to a prompt as a separate, space-delimited
   * word never changes its colour: inserted between two spaces, appended
   * after a space or put in front before a space.
   */
  lemma ShapeOrSizeWordKeepsColor(x: string, w: string, y: string)
    requires w in ShapeKeywords + SizeKeywords
    ensures Classify(x + " " + w + " " + y).color == Classify(x + " " + y).color
    ensures Classify(x + " " + w).color == Classify(x).color
    ensures Classify(w + " " + y).color == Classify(y).color
  {
    ShapeAndSizeWordsHoldNoColorKeyword();
    ShapeKeywordsAreLowerCase();
    SizeKeywordsAreLowerCase();
    LowerOfLowerCase(w);
    ColorUnchangedByInsertedWords(x, w, y);
    ColorUnchangedByAppendedWords(x, w);
    ColorUnchangedByPrependedWords(w, y);
  }

  /** A colour or size keyword added as a separate, space-delimited word never changes the shape. */
  lemma ColorOrSizeWordKeepsShape(x: string, w: string, y: string)
    requires w in SizeKeywords || exists j | 0 <= j < |ColorKeywords| :: ColorKeywords[j].0 == w
    ensures Classify(x + " " + w + " " + y).shape == Classify(x + " " + y).shape
    ensures Classify(x + " " + w).shape == Classify(x).shape
    ensures Classify(w + " " + y).shape == Classify(y).shape
  {
    ColorAndSizeWordsHoldNoShapeKeyword();
    ColorKeywordsAreLowerCase();
    SizeKeywordsAreLowerCase();
    LowerOfLowerCase(w);
    ShapeUnchangedByInsertedWords(x, w, y);
    ShapeUnchangedByAppendedWords(x, w);
    ShapeUnchangedByPrependedWords(w, y);
  }

  /** A colour or shape keyword added as a separate, space-delimited word never changes the size. */
  lemma ColorOrShapeWordKeepsSize(x: string, w: string, y: string)
    requires w in ShapeKeywords || exists j | 0 <= j < |ColorKeywords| :: ColorKeywords[j].0 == w
    ensures Classify(x + " " + w + " " + y).size == Classify(x + " " + y).size
    ensures Classify(x + " " + w).size == Classify(x).size
    ensures Classify(w + " " + y).size == Classify(y).size
  {
    ColorAndShapeWordsHoldNoSizeKeyword();
    ColorKeywordsAreLowerCase();
    ShapeKeywordsAreLowerCase();
    LowerOfLowerCase(w);
    SizeUnchangedByInsertedWords(x, w, y);
    SizeUnchangedByAppendedWords(x, w);
    SizeUnchangedByPrependedWords(w, y);
  }

  /**
   * Without the space the scans are not independent: the shape keyword "car"
   * glued before "ed" makes "cared", which holds the colour keyword "red".
   */
  lemma ExampleGluedKeywordChangesColor()
    ensures ColorOf("ed") == Gray
    ensures ColorOf("car" + "ed") == Red
  {
    assert NoColorKeyword("ed") by {
      LacksKeywords("ed", ColorWords, "rbgypobwgg");
      LacksColorWords("ed");
    }
    assert "car" + "ed" == "ca" + "red";
    assert OccursAt("car" + "ed", "red", 2);
    ColorIsFirstTableMatch("car" + "ed", 0);
  }
}
