/**
 * `slugify`: lower-case and strip the text, transliterate Cyrillic letters by a fixed
 * table, keep other letters and digits, turn everything else into '-', then collapse runs
 * of '-' and trim them from both ends.
 */
module Slug {
  import opened CategoryTables

  const TransMap: map<char, string> := map[
    'а' := "a", 'б' := "b", 'в' := "v", 'г' := "g", 'д' := "d", 'е' := "e", 'ё' := "e",
    'ж' := "zh", 'з' := "z", 'и' := "i", 'й' := "y", 'к' := "k", 'л' := "l", 'м' := "m",
    'н' := "n", 'о' := "o", 'п' := "p", 'р' := "r", 'с' := "s", 'т' := "t", 'у' := "u",
    'ф' := "f", 'х' := "h", 'ц' := "ts", 'ч' := "ch", 'ш' := "sh", 'щ' := "sch",
    'ь' := "", 'ы' := "y", 'ъ' := "", 'э' := "e", 'ю' := "yu", 'я' := "ya"]

  /** No table entry produces a dash. */
  lemma TableHasNoDash(c: char)
    requires c in TransMap
    ensures '-' !in TransMap[c]
  {
  }

  /** What one character of the lowered text contributes. */
  function CharSlug(py: PyText, c: char): string
  {
    if c in TransMap then TransMap[c] else if py.isAlnum(c) then [c] else "-"
  }

  /** The loop's output for a whole text. */
  function Transliterated(py: PyText, t: string): string
  {
    if t == [] then [] else Transliterated(py, t[..|t| - 1]) + CharSlug(py, t[|t| - 1])
  }

  /** Transliteration works character by character. */
  lemma {:induction false} TransliteratedConcat(py: PyText, a: string, b: string)
    ensures Transliterated(py, a + b) == Transliterated(py, a) + Transliterated(py, b)
    decreases |b|
  {
    if b == [] {
      assert a + b == a;
    } else {
      var b0 := b[..|b| - 1];
      assert (a + b)[..|a + b| - 1] == a + b0;
      TransliteratedConcat(py, a, b0);
    }
  }

  /** A character that contributes nothing can be left out of the text. */
  lemma DroppedChar(py: PyText, a: string, c: char, b: string)
    requires CharSlug(py, c) == ""
    ensures Transliterated(py, a + [c] + b) == Transliterated(py, a + b)
  {
    var ac := a + [c];
    assert Transliterated(py, ac) == Transliterated(py, a) by {
      assert ac[..|ac| - 1] == a && ac[|ac| - 1] == c;
    }
    TransliteratedConcat(py, ac, b);
    TransliteratedConcat(py, a, b);
  }

  /** The soft and hard signs vanish from the slug's letters. */
  lemma SignsDropped(py: PyText, a: string, b: string)
    ensures Transliterated(py, a + ['ь'] + b) == Transliterated(py, a + b)
    ensures Transliterated(py, a + ['ъ'] + b) == Transliterated(py, a + b)
  {
    assert TransMap['ь'] == "" && TransMap['ъ'] == "";
    DroppedChar(py, a, 'ь', b);
    DroppedChar(py, a, 'ъ', b);
  }

  /** A text made only of table letters has no dash in its transliteration. */
  lemma {:induction false} TableTextHasNoDash(py: PyText, t: string)
    requires forall i :: 0 <= i < |t| ==> t[i] in TransMap
    ensures '-' !in Transliterated(py, t)
    decreases |t|
  {
    if t != [] {
      TableTextHasNoDash(py, t[..|t| - 1]);
      TableHasNoDash(t[|t| - 1]);
    }
  }

  predicate NoDoubleDash(s: string)
  {
    forall i :: 0 <= i < |s| - 1 ==> !(s[i] == '-' && s[i + 1] == '-')
  }

  /** The text with every dash removed: what the dash clean-up must leave alone. */
  function Undashed(s: string): string
  {
    if s == [] then [] else (if s[0] == '-' then [] else [s[0]]) + Undashed(s[1..])
  }

  /** `re.sub(r'-+', '-', s)`: every run of dashes becomes one dash. */
  function CollapseDashes(s: string): (r: string)
    ensures |r| <= |s|
    ensures NoDoubleDash(r)
    ensures s != [] ==> r != [] && r[0] == s[0] && r[|r| - 1] == s[|s| - 1]
    ensures '-' !in s ==> r == s
  {
    if |s| <= 1 then s
    else if s[0] == '-' && s[1] == '-' then CollapseDashes(s[1..])
    else [s[0]] + CollapseDashes(s[1..])
  }

  /** A text with no "--" is already collapsed. */
  lemma {:induction false} CollapseFixes(s: string)
    requires NoDoubleDash(s)
    ensures CollapseDashes(s) == s
    decreases |s|
  {
    if |s| > 1 {
      var tail := s[1..];
      assert !(s[0] == '-' && s[1] == '-');
      assert NoDoubleDash(tail) by {
        NoDoubleDashSlice(s, 1, |s|);
        assert s[1..|s|] == tail;
      }
      CollapseFixes(tail);
      assert CollapseDashes(s) == [s[0]] + tail;
      assert [s[0]] + tail == s;
    }
  }

  /** Two dashes in a row collapse like one, wherever they stand: together with
    * `CollapseFixes` this says each run of dashes becomes exactly one dash. */
  lemma {:induction false} CollapseDoubleDash(a: string, b: string)
    ensures CollapseDashes(a + "--" + b) == CollapseDashes(a + "-" + b)
    decreases |a|
  {
    var s := a + "--" + b;
    var t := a + "-" + b;
    if a == [] {
      assert s[1..] == t;
    } else {
      assert s[1..] == a[1..] + "--" + b;
      assert t[1..] == a[1..] + "-" + b;
      assert s[0] == t[0] && s[1] == t[1];
      CollapseDoubleDash(a[1..], b);
    }
  }

  /** Collapsing touches only dashes: with the dashes removed the text is the same. */
  lemma {:induction false} CollapseKeepsText(s: string)
    ensures Undashed(CollapseDashes(s)) == Undashed(s)
    decreases |s|
  {
    if |s| > 1 {
      var rest := CollapseDashes(s[1..]);
      CollapseKeepsText(s[1..]);
      if !(s[0] == '-' && s[1] == '-') {
        assert ([s[0]] + rest)[1..] == rest;
      }
    }
  }

  /** Collapsing leaves a dash exactly when there was one. */
  lemma {:induction false} CollapseKeepsDash(s: string)
    ensures '-' in CollapseDashes(s) <==> '-' in s
    decreases |s|
  {
    if |s| > 1 {
      var rest := CollapseDashes(s[1..]);
      CollapseKeepsDash(s[1..]);
      assert s == [s[0]] + s[1..];
      if s[0] == '-' && s[1] == '-' {
        assert s[1..][0] == '-';
      }
    }
  }

  /** `lstrip('-')`: only leading dashes go. */
  function StripLeading(s: string): (r: string)
    ensures |r| <= |s| && r == s[|s| - |r|..]
    ensures forall i :: 0 <= i < |s| - |r| ==> s[i] == '-'
    ensures r == [] || r[0] != '-'
    ensures s == [] || s[0] != '-' ==> r == s
  {
    if s != [] && s[0] == '-' then StripLeading(s[1..]) else s
  }

  /** `rstrip('-')`: only trailing dashes go. */
  function StripTrailing(s: string): (r: string)
    ensures |r| <= |s| && r == s[..|r|]
    ensures forall i :: |r| <= i < |s| ==> s[i] == '-'
    ensures r == [] || r[|r| - 1] != '-'
    ensures s == [] || s[|s| - 1] != '-' ==> r == s
  {
    if s != [] && s[|s| - 1] == '-' then StripTrailing(s[..|s| - 1]) else s
  }

  /** `strip('-')`. */
  function StripDashes(s: string): string
  {
    StripTrailing(StripLeading(s))
  }

  lemma NoDoubleDashSlice(s: string, i: int, j: int)
    requires NoDoubleDash(s) && 0 <= i <= j <= |s|
    ensures NoDoubleDash(s[i..j])
  {
    var t := s[i..j];
    forall k | 0 <= k < |t| - 1
      ensures !(t[k] == '-' && t[k + 1] == '-')
    {
      assert t[k] == s[i + k] && t[k + 1] == s[i + k + 1];
    }
  }

  /** The slug of `text`. */
  function SlugOf(py: PyText, text: string): string
  {
    StripDashes(CollapseDashes(Transliterated(py, py.strip(py.lower(text)))))
  }

  lemma StripLeadingShape(c: string)
    requires NoDoubleDash(c)
    ensures NoDoubleDash(StripLeading(c))
  {
    var l := StripLeading(c);
    assert c[|c| - |l|..|c|] == l;
    NoDoubleDashSlice(c, |c| - |l|, |c|);
  }

  lemma StripTrailingShape(l: string)
    requires NoDoubleDash(l)
    ensures NoDoubleDash(StripTrailing(l))
  {
    var r := StripTrailing(l);
    assert l[0..|r|] == r;
    NoDoubleDashSlice(l, 0, |r|);
  }

  /** Trimming a text without "--" leaves no dash at either end and still no "--". */
  lemma StripDashesShape(c: string)
    requires NoDoubleDash(c)
    ensures var r := StripDashes(c); (r == [] || (r[0] != '-' && r[|r| - 1] != '-')) && NoDoubleDash(r)
  {
    var l := StripLeading(c);
    StripLeadingShape(c);
    StripTrailingShape(l);
    var r := StripTrailing(l);
    assert r != [] ==> r[0] == l[0];
  }

  /** A slug has no leading or trailing dash and never two dashes in a row. */
  lemma SlugShape(py: PyText, text: string)
    ensures var r := SlugOf(py, text); (r == [] || (r[0] != '-' && r[|r| - 1] != '-')) && NoDoubleDash(r)
  {
    StripDashesShape(CollapseDashes(Transliterated(py, py.strip(py.lower(text)))));
  }

  lemma {:induction false} UndashedConcat(a: string, b: string)
    ensures Undashed(a + b) == Undashed(a) + Undashed(b)
    decreases |a|
  {
    if a == [] {
      assert a + b == b;
    } else {
      assert (a + b)[1..] == a[1..] + b;
      UndashedConcat(a[1..], b);
    }
  }

  lemma {:induction false} UndashedOfDashes(s: string)
    requires forall i :: 0 <= i < |s| ==> s[i] == '-'
    ensures Undashed(s) == []
    decreases |s|
  {
    if s != [] {
      UndashedOfDashes(s[1..]);
    }
  }

  /** Trimming leading dashes keeps every other character. */
  lemma StripLeadingKeepsText(s: string)
    ensures Undashed(StripLeading(s)) == Undashed(s)
  {
    var l := StripLeading(s);
    var k := |s| - |l|;
    assert s == s[..k] + l;
    UndashedConcat(s[..k], l);
    UndashedOfDashes(s[..k]);
  }

  /** Trimming trailing dashes keeps every other character. */
  lemma StripTrailingKeepsText(s: string)
    ensures Undashed(StripTrailing(s)) == Undashed(s)
  {
    var r := StripTrailing(s);
    assert s == r + s[|r|..];
    UndashedConcat(r, s[|r|..]);
    UndashedOfDashes(s[|r|..]);
  }

  /** Trimming dashes from both ends keeps every other character. */
  lemma StripDashesKeepsText(s: string)
    ensures Undashed(StripDashes(s)) == Undashed(s)
  {
    StripLeadingKeepsText(s);
    StripTrailingKeepsText(StripLeading(s));
  }

  /** The clean-up touches only dashes: the slug holds every other character of the
    * transliteration, in order. */
  lemma SlugKeepsText(py: PyText, text: string)
    ensures Undashed(SlugOf(py, text)) == Undashed(Transliterated(py, py.strip(py.lower(text))))
  {
    var t := Transliterated(py, py.strip(py.lower(text)));
    CollapseKeepsText(t);
    StripDashesKeepsText(CollapseDashes(t));
  }

  /** A text that lowers and strips to table letters only slugs to its letter-by-letter
    * transliteration. */
  lemma TableTextSlug(py: PyText, text: string)
    requires var t := py.strip(py.lower(text)); forall i :: 0 <= i < |t| ==> t[i] in TransMap
    ensures SlugOf(py, text) == Transliterated(py, py.strip(py.lower(text)))
  {
    TableTextHasNoDash(py, py.strip(py.lower(text)));
  }

  /** The character loop of `slugify`, then the collapse and the trim. */
  method Slugify(py: PyText, text: string) returns (slug: string)
    ensures slug == SlugOf(py, text)
  {
    var t := py.strip(py.lower(text));
    var s := "";
    for i := 0 to |t|
      invariant s == Transliterated(py, t[..i])
    {
      var c := t[i];
      if c in TransMap {
        s := s + TransMap[c];
      } else if py.isAlnum(c) {
        s := s + [c];
      } else {
        s := s + "-";
      }
      assert t[..i + 1][..i] == t[..i];
    }
    assert t[..|t|] == t;
    slug := StripDashes(CollapseDashes(s));
  }
}
