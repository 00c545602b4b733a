/** The label shown for a sub-process key: `key.replace(/([A-Z])/g, ' $1').toUpperCase()`.
    A space is put before every ASCII capital letter, then every letter is
    upper-cased, so `roomAndPillar` is shown as `ROOM AND PILLAR`. */
module ProcessLabel {

  predicate IsUpper(c: char) { 'A' <= c <= 'Z' }

  predicate IsLower(c: char) { 'a' <= c <= 'z' }

  /** Upper-casing of one character (ASCII letters only). */
  function ToUpperChar(c: char): (u: char)
    ensures !IsLower(u)
    ensures IsLower(c) ==> IsUpper(u) && u as int == c as int - 32
    ensures !IsLower(c) ==> u == c
  {
    if IsLower(c) then (c as int - 32) as char else c
  }

  /** `toUpperCase` on a whole string. */
  function ToUpper(s: string): (r: string)
    ensures |r| == |s|
  {
    seq(|s|, i requires 0 <= i < |s| => ToUpperChar(s[i]))
  }

  /** `replace(/([A-Z])/g, ' $1')`: every capital letter gets a space in front of it. */
  function SpaceBeforeCapitals(s: string): string
  {
    if s == [] then []
    else (if IsUpper(s[0]) then [' ', s[0]] else [s[0]]) + SpaceBeforeCapitals(s[1..])
  }

  /** The display label of a sub-process key. */
  function Label(key: string): string
  {
    ToUpper(SpaceBeforeCapitals(key))
  }

  /** Number of capital letters in `s`. */
  function CountUpper(s: string): nat
  {
    if s == [] then 0 else (if IsUpper(s[0]) then 1 else 0) + CountUpper(s[1..])
  }

  /** `s` with every space taken out. */
  function RemoveSpaces(s: string): string
  {
    if s == [] then [] else (if s[0] == ' ' then [] else [s[0]]) + RemoveSpaces(s[1..])
  }

  /** Number of spaces in `s`. */
  function CountSpaces(s: string): nat
  {
    if s == [] then 0 else (if s[0] == ' ' then 1 else 0) + CountSpaces(s[1..])
  }

  lemma ToUpperConcat(a: string, b: string)
    ensures ToUpper(a + b) == ToUpper(a) + ToUpper(b)
  {
  }

  lemma {:induction false} SpaceBeforeCapitalsConcat(a: string, b: string)
    ensures SpaceBeforeCapitals(a + b) == SpaceBeforeCapitals(a) + SpaceBeforeCapitals(b)
  {
    if a != [] {
      assert (a + b)[0] == a[0] && (a + b)[1..] == a[1..] + b;
      SpaceBeforeCapitalsConcat(a[1..], b);
      var h := if IsUpper(a[0]) then [' ', a[0]] else [a[0]];
      assert SpaceBeforeCapitals(a + b) == h + SpaceBeforeCapitals(a[1..] + b);
    } else {
      assert a + b == b;
    }
  }

  /** The label of a single character. */
  lemma LabelOfChar(c: char)
    ensures Label([c]) == if IsUpper(c) then [' ', c] else [ToUpperChar(c)]
  {
    assert [c][0] == c && [c][1..] == [];
    assert SpaceBeforeCapitals([c]) == (if IsUpper(c) then [' ', c] else [c]) + SpaceBeforeCapitals([]);
  }

  /** The label of a concatenation is the concatenation of the labels: the
      transform works character by character. */
  lemma {:induction false} LabelConcat(a: string, b: string)
    ensures Label(a + b) == Label(a) + Label(b)
  {
    SpaceBeforeCapitalsConcat(a, b);
    ToUpperConcat(SpaceBeforeCapitals(a), SpaceBeforeCapitals(b));
  }

  /** The label is one character longer than the key for every capital letter. */
  lemma {:induction false} LabelLength(key: string)
    ensures |Label(key)| == |key| + CountUpper(key)
  {
    if key != [] {
      LabelLength(key[1..]);
      LabelConcat([key[0]], key[1..]);
      LabelOfChar(key[0]);
      assert [key[0]] + key[1..] == key;
    }
  }

  /** No label holds a lower-case letter. */
  lemma {:induction false} LabelHasNoLowercase(key: string)
    ensures forall i :: 0 <= i < |Label(key)| ==> !IsLower(Label(key)[i])
  {
    var t := SpaceBeforeCapitals(key);
    forall i | 0 <= i < |Label(key)| ensures !IsLower(Label(key)[i]) {
      assert Label(key)[i] == ToUpperChar(t[i]);
    }
  }

  /** Where each character of the key lands in its label: the character at
      index `i` is moved right by the number of capitals before it; a capital
      is preceded by a space and every letter is upper-cased. */
  lemma {:induction false} LabelAt(key: string, i: nat)
    requires i < |key|
    ensures var j := i + CountUpper(key[..i]);
      if IsUpper(key[i]) then
        j + 1 < |Label(key)| && Label(key)[j] == ' ' && Label(key)[j + 1] == key[i]
      else
        j < |Label(key)| && Label(key)[j] == ToUpperChar(key[i])
  {
    var pre, c, post := key[..i], key[i], key[i + 1..];
    assert key == pre + ([c] + post);
    LabelConcat(pre, [c] + post);
    LabelConcat([c], post);
    LabelLength(pre);
    assert SpaceBeforeCapitals([c]) == if IsUpper(c) then [' ', c] else [c];
  }

  /** The transform adds spaces and nothing else: one per capital letter. */
  lemma {:induction false} LabelSpaces(key: string)
    ensures CountSpaces(Label(key)) == CountSpaces(key) + CountUpper(key)
  {
    if key != [] {
      LabelSpaces(key[1..]);
      LabelConcat([key[0]], key[1..]);
      LabelOfChar(key[0]);
      assert [key[0]] + key[1..] == key;
      CountSpacesConcat(Label([key[0]]), Label(key[1..]));
    }
  }

  /** Once the spaces are taken out, the label is the key upper-cased. */
  lemma {:induction false} LabelWithoutSpaces(key: string)
    ensures RemoveSpaces(Label(key)) == ToUpper(RemoveSpaces(key))
  {
    if key != [] {
      LabelWithoutSpaces(key[1..]);
      LabelConcat([key[0]], key[1..]);
      LabelOfChar(key[0]);
      assert [key[0]] + key[1..] == key;
      RemoveSpacesConcat(Label([key[0]]), Label(key[1..]));
      ToUpperConcat(if key[0] == ' ' then [] else [key[0]], RemoveSpaces(key[1..]));
    }
  }

  lemma {:induction false} CountSpacesConcat(a: string, b: string)
    ensures CountSpaces(a + b) == CountSpaces(a) + CountSpaces(b)
  {
    if a != [] {
      assert (a + b)[0] == a[0] && (a + b)[1..] == a[1..] + b;
      CountSpacesConcat(a[1..], b);
    } else {
      assert a + b == b;
    }
  }

  lemma {:induction false} RemoveSpacesConcat(a: string, b: string)
    ensures RemoveSpaces(a + b) == RemoveSpaces(a) + RemoveSpaces(b)
  {
    if a != [] {
      assert (a + b)[0] == a[0] && (a + b)[1..] == a[1..] + b;
      RemoveSpacesConcat(a[1..], b);
      var h := if a[0] == ' ' then [] else [a[0]];
      assert RemoveSpaces(a + b) == h + RemoveSpaces(a[1..] + b);
    } else {
      assert a + b == b;
    }
  }

  /** A word with no capital letters. */
  predicate NoCapitals(w: string)
  {
    forall i :: 0 <= i < |w| ==> !IsUpper(w[i])
  }

  /** A word whose only capital letter is its first. */
  predicate CapitalWord(w: string)
  {
    |w| > 0 && IsUpper(w[0]) && NoCapitals(w[1..])
  }

  /** A key with no capital letters is shown upper-cased and otherwise
      unchanged (`blasting` is shown as `BLASTING`). */
  lemma {:induction false} LabelOfLowerWord(w: string)
    requires NoCapitals(w)
    ensures Label(w) == ToUpper(w)
  {
    if w != [] {
      assert NoCapitals(w[1..]) by {
        assert forall i :: 0 <= i < |w[1..]| ==> w[1..][i] == w[i + 1];
      }
      LabelOfLowerWord(w[1..]);
      LabelConcat([w[0]], w[1..]);
      LabelOfChar(w[0]);
      assert [w[0]] + w[1..] == w;
    }
  }

  /** A word that starts with its only capital is shown upper-cased behind a
      space (`Pillar` is shown as ` PILLAR`). */
  lemma LabelOfCapitalWord(w: string)
    requires CapitalWord(w)
    ensures Label(w) == [' '] + ToUpper(w)
  {
    LabelOfLowerWord(w[1..]);
    LabelConcat([w[0]], w[1..]);
    LabelOfChar(w[0]);
    assert [w[0]] + w[1..] == w;
  }

  /** A camel-case key of three words is shown as the three words upper-cased
      and separated by single spaces. */
  lemma LabelOfCamelCase(a: string, b: string, c: string)
    requires NoCapitals(a) && CapitalWord(b) && CapitalWord(c)
    ensures Label(a + b + c) == ToUpper(a) + [' '] + ToUpper(b) + [' '] + ToUpper(c)
  {
    LabelConcat(a + b, c);
    LabelConcat(a, b);
    LabelOfLowerWord(a);
    LabelOfCapitalWord(b);
    LabelOfCapitalWord(c);
  }

  /** The labels of the surface-mining keys, for strings equal to them. */
  lemma SurfaceMiningKeyLabels(blasting: string, excavation: string, transportation: string)
    requires blasting == "blasting" && excavation == "excavation" && transportation == "transportation"
    ensures Label(blasting) == "BLASTING"
    ensures Label(excavation) == "EXCAVATION"
    ensures Label(transportation) == "TRANSPORTATION"
  {
    LabelOfLowerWord(blasting);
    LabelOfLowerWord(excavation);
    LabelOfLowerWord(transportation);
  }

  /** The label of any string equal to the key `longwall`. */
  lemma LongwallKeyLabel(longwall: string)
    requires longwall == "longwall"
    ensures Label(longwall) == "LONGWALL"
  {
    LabelOfLowerWord(longwall);
  }

  /** The label of any string equal to the key `roomAndPillar`. */
  lemma RoomAndPillarKeyLabel(roomAndPillar: string)
    requires roomAndPillar == "roomAndPillar"
    ensures Label(roomAndPillar) == "ROOM AND PILLAR"
  {
    var a, b, c := "room", "And", "Pillar";
    assert roomAndPillar == a + b + c;
    LabelOfCamelCase(a, b, c);
    assert ToUpper(a) == "ROOM" && ToUpper(b) == "AND" && ToUpper(c) == "PILLAR";
  }

  /** The label of any string equal to the key `subLevelCaving`. */
  lemma SubLevelCavingKeyLabel(subLevelCaving: string)
    requires subLevelCaving == "subLevelCaving"
    ensures Label(subLevelCaving) == "SUB LEVEL CAVING"
  {
    var a, b, c := "sub", "Level", "Caving";
    assert subLevelCaving == a + b + c;
    LabelOfCamelCase(a, b, c);
    assert ToUpper(a) == "SUB" && ToUpper(b) == "LEVEL" && ToUpper(c) == "CAVING";
  }

  // The labels of the six table keys, stated on the literals. Each goes
  // through the lemma above, which keeps the verifier from unfolding the
  // label transform on the literal character by character.

  /** `blasting`, `excavation` and `transportation` are shown as
      `BLASTING`, `EXCAVATION` and `TRANSPORTATION`. */
  lemma SurfaceMiningLabels()
    ensures Label("blasting") == "BLASTING"
    ensures Label("excavation") == "EXCAVATION"
    ensures Label("transportation") == "TRANSPORTATION"
  {
    SurfaceMiningKeyLabels("blasting", "excavation", "transportation");
  }

  /** `longwall` is shown as `LONGWALL`. */
  lemma LongwallLabel()
    ensures Label("longwall") == "LONGWALL"
  {
    LongwallKeyLabel("longwall");
  }

  /** `roomAndPillar` is shown as `ROOM AND PILLAR`. */
  lemma RoomAndPillarLabel()
    ensures Label("roomAndPillar") == "ROOM AND PILLAR"
  {
    RoomAndPillarKeyLabel("roomAndPillar");
  }

  /** `subLevelCaving` is shown as `SUB LEVEL CAVING`. */
  lemma SubLevelCavingLabel()
    ensures Label("subLevelCaving") == "SUB LEVEL CAVING"
  {
    SubLevelCavingKeyLabel("subLevelCaving");
  }
}
