/** `GenderNormalizer.normalize` of src/normalizers/enum_normalizer.py. */
module EnumNormalizer {
  import opened Text

  datatype Gender = Male | Female | Other

  /** The string the normalizer returns for each outcome. */
  function Label(g: Gender): string
  {
    match g
    case Male => "Male"
    case Female => "Female"
    case Other => "Other"
  }

  /** The membership tests on the stripped, lower-cased value. */
  function Classify(canonical: string): Gender
  {
    if canonical in ["male", "m", "man", "boy"] then Male
    else if canonical in ["female", "f", "woman", "girl"] then Female
    else Other
  }

  /** `GenderNormalizer.normalize(value)` for a string value: `value.strip().lower()`, then the alias lists. */
  function Normalize(value: string): Gender
  {
    Classify(Lower(Strip(value)))
  }

  lemma {:induction false} StripLeftPrefix(ws: string, s: string)
    requires forall i :: 0 <= i < |ws| ==> IsSpace(ws[i])
    ensures StripLeft(ws + s) == StripLeft(s)
  {
    if ws != [] {
      assert (ws + s)[1..] == ws[1..] + s;
      StripLeftPrefix(ws[1..], s);
    } else {
      assert ws + s == s;
    }
  }

  lemma {:induction false} StripRightSuffix(s: string, ws: string)
    requires forall i :: 0 <= i < |ws| ==> IsSpace(ws[i])
    ensures StripRight(s + ws) == StripRight(s)
  {
    if ws != [] {
      var t := s + ws;
      assert t[..|t| - 1] == s + ws[..|ws| - 1];
      StripRightSuffix(s, ws[..|ws| - 1]);
    } else {
      assert s + ws == s;
    }
  }

  /** Stripping from the left either removes everything or stops before the trailing part. */
  lemma {:induction false} StripLeftAppend(s: string, ws: string)
    ensures StripLeft(s + ws) == StripLeft(s) + ws || (StripLeft(s) == [] && StripLeft(s + ws) == StripLeft(ws))
  {
    if s == [] {
      assert s + ws == ws;
    } else if IsSpace(s[0]) {
      assert (s + ws)[1..] == s[1..] + ws;
      StripLeftAppend(s[1..], ws);
    }
  }

  lemma {:induction false} StripRightAllSpace(ws: string)
    requires forall i :: 0 <= i < |ws| ==> IsSpace(ws[i])
    ensures StripRight(ws) == []
  {
    if ws != [] {
      StripRightAllSpace(ws[..|ws| - 1]);
    }
  }

  lemma {:induction false} StripLeftAllSpace(ws: string)
    requires forall i :: 0 <= i < |ws| ==> IsSpace(ws[i])
    ensures StripLeft(ws) == []
  {
    if ws != [] {
      StripLeftAllSpace(ws[1..]);
    }
  }

  /** Whitespace around a value does not change what `strip` leaves. */
  lemma StripIgnoresPadding(left: string, s: string, right: string)
    requires forall i :: 0 <= i < |left| ==> IsSpace(left[i])
    requires forall i :: 0 <= i < |right| ==> IsSpace(right[i])
    ensures Strip(left + s + right) == Strip(s)
  {
    assert left + s + right == left + (s + right);
    StripLeftPrefix(left, s + right);
    StripLeftAppend(s, right);
    if StripLeft(s + right) == StripLeft(s) + right {
      StripRightSuffix(StripLeft(s), right);
    } else {
      StripLeftAllSpace(right);
      assert StripLeft(s) == [];
    }
  }

  lemma {:induction false} StripLeftLower(s: string)
    ensures Lower(StripLeft(s)) == StripLeft(Lower(s))
  {
    if s != [] {
      assert Lower(s)[0] == LowerChar(s[0]);
      assert Lower(s)[1..] == Lower(s[1..]);
      StripLeftLower(s[1..]);
    }
  }

  lemma {:induction false} StripRightLower(s: string)
    ensures Lower(StripRight(s)) == StripRight(Lower(s))
  {
    if s != [] {
      assert Lower(s)[|s| - 1] == LowerChar(s[|s| - 1]);
      assert Lower(s)[..|s| - 1] == Lower(s[..|s| - 1]);
      StripRightLower(s[..|s| - 1]);
    }
  }

  /** Values that differ only in ASCII letter case normalize alike. */
  lemma CaseInsensitive(s: string, t: string)
    requires Lower(s) == Lower(t)
    ensures Normalize(s) == Normalize(t)
  {
    StripLeftLower(s);
    StripRightLower(StripLeft(s));
    StripLeftLower(t);
    StripRightLower(StripLeft(t));
  }

  /** Values that differ only in surrounding whitespace normalize alike. */
  lemma PaddingInsensitive(left: string, s: string, right: string)
    requires forall i :: 0 <= i < |left| ==> IsSpace(left[i])
    requires forall i :: 0 <= i < |right| ==> IsSpace(right[i])
    ensures Normalize(left + s + right) == Normalize(s)
  {
    StripIgnoresPadding(left, s, right);
  }

  /** Normalizing the normalizer's own output gives it back. */
  lemma Idempotent(s: string)
    ensures Normalize(Label(Normalize(s))) == Normalize(s)
  {
    var l := Label(Normalize(s));
    assert !IsSpace(l[0]) && !IsSpace(l[|l| - 1]);
    assert Strip(l) == l;
    match Normalize(s)
    case Male => assert Lower("Male") == "male";
    case Female => assert Lower("Female") == "female";
    case Other => assert Lower("Other") == "other";
  }

  /** The aliases in each list, in any letter case, give that list's outcome. */
  lemma Aliases(s: string)
    ensures Lower(s) in ["male", "m", "man", "boy"] && !IsSpace(s[0]) && !IsSpace(s[|s| - 1]) ==> Normalize(s) == Male
    ensures Lower(s) in ["female", "f", "woman", "girl"] && !IsSpace(s[0]) && !IsSpace(s[|s| - 1]) ==> Normalize(s) == Female
  {
    if s != [] && !IsSpace(s[0]) && !IsSpace(s[|s| - 1]) {
      assert StripLeft(s) == s;
      assert Strip(s) == s;
    }
  }

  /** `'male'` (the normalizer's unit test) and `'M'` (the claim processor's test) give `"Male"`; a value matching no alias gives `"Other"`. */
  lemma Examples()
    ensures Label(Normalize("male")) == "Male"
    ensures Label(Normalize("M")) == "Male"
    ensures Label(Normalize("unknown")) == "Other"
  {
    assert Lower("male") == "male";
    Aliases("male");
    Aliases("M");
    assert Lower("M") == "m";
    var u := "unknown";
    assert StripLeft(u) == u && Strip(u) == u;
    assert Lower(u) == u;
  }
}
