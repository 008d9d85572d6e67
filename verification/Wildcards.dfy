// What the entries of a fake-ip-filter mean, and which of them the emitted rules
// catch.
module Wildcards {
  import opened Wrappers
  import opened DnsRules

  // A star stands for any run of characters, also none; every other character for
  // itself.
  ghost predicate Glob(pattern: string, name: string)
    decreases |pattern|
  {
    if pattern == "" then name == ""
    else if pattern[0] == '*' then exists k | 0 <= k <= |name| :: Glob(pattern[1..], name[k..])
    else name != "" && name[0] == pattern[0] && Glob(pattern[1..], name[1..])
  }

  // Names the filter is meant for.
  ghost predicate FilterMeant(filter: seq<string>, name: string) {
    exists f | f in filter :: Glob(f, name)
  }

  // Names the rules made from an entry catch.
  predicate EntryCaught(f: string, name: string) {
    if IsPattern(f) then HasSuffix(name, Suffix(f)) else name == f
  }

  predicate FilterCaught(filter: seq<string>, name: string) {
    exists f | f in filter :: EntryCaught(f, name)
  }

  // No star, or a single one that stands for the front labels.
  predicate TranslatedExactly(f: string) {
    '*' !in f || (HasPrefix(f, "*.") && '*' !in f[1..])
  }

  lemma StarOccurs(f: string)
    ensures Contains(f, "*") <==> '*' in f
  {
    if '*' in f {
      var i :| 0 <= i < |f| && f[i] == '*';
      assert OccursAt(f, "*", i);
    }
    if Contains(f, "*") {
      var i :| 0 <= i <= |f| - 1 && OccursAt(f, "*", i);
      assert f[i] == f[i..i + 1][0] == '*';
    }
  }

  lemma {:induction false} GlobOfPlain(pattern: string, name: string)
    requires '*' !in pattern
    ensures Glob(pattern, name) <==> pattern == name
  {
    if pattern == "" {
    } else {
      assert pattern[0] in pattern && forall c | c in pattern[1..] :: c in pattern;
      if name != "" {
        GlobOfPlain(pattern[1..], name[1..]);
        assert pattern == [pattern[0]] + pattern[1..] && name == [name[0]] + name[1..];
      }
    }
  }

  lemma GlobOfSuffix(f: string, name: string)
    requires HasPrefix(f, "*.") && '*' !in f[1..]
    ensures Glob(f, name) <==> HasSuffix(name, f[1..])
  {
    var rest := f[1..];
    assert f[0] == "*."[0] == '*';
    forall k | 0 <= k <= |name| ensures Glob(rest, name[k..]) <==> name[k..] == rest {
      GlobOfPlain(rest, name[k..]);
    }
    if HasSuffix(name, rest) {
      assert Glob(rest, name[|name| - |rest|..]);
    }
  }

  // An entry translated exactly catches exactly the names it is meant for.
  lemma ExactEntryCatches(f: string, name: string)
    requires TranslatedExactly(f)
    ensures EntryCaught(f, name) <==> Glob(f, name)
  {
    StarOccurs(f);
    if '*' !in f {
      assert f != "" ==> f[0] in f && f[0] != "*."[0];
      GlobOfPlain(f, name);
    } else {
      GlobOfSuffix(f, name);
    }
  }

  function WithoutStars(f: string): (r: string)
    ensures '*' !in r
    ensures |r| <= |f| && ('*' !in f ==> r == f)
  {
    if f == "" then ""
    else
      var rest := WithoutStars(f[1..]);
      assert f == [f[0]] + f[1..];
      if f[0] == '*' then rest else [f[0]] + rest
  }

  lemma {:induction false} GlobWithoutStars(f: string)
    ensures Glob(f, WithoutStars(f))
  {
    if f != "" {
      GlobWithoutStars(f[1..]);
      var name := WithoutStars(f);
      if f[0] == '*' {
        assert name[0..] == name == WithoutStars(f[1..]);
      } else {
        assert name[1..] == WithoutStars(f[1..]);
      }
    }
  }

  // A suffix with a star in it catches no name without one.
  lemma StarredSuffix(name: string, suffix: string)
    requires '*' !in name && '*' in suffix
    ensures !HasSuffix(name, suffix)
  {
    var i :| 0 <= i < |suffix| && suffix[i] == '*';
    if |suffix| <= |name| {
      assert name[|name| - |suffix|..][i] == name[|name| - |suffix| + i];
    }
  }

  // Any other entry misses a name it is meant for: the one with its stars left out.
  lemma InexactEntryMisses(f: string)
    requires !TranslatedExactly(f)
    ensures '*' !in WithoutStars(f) && Glob(f, WithoutStars(f)) && !EntryCaught(f, WithoutStars(f))
  {
    var name := WithoutStars(f);
    StarOccurs(f);
    GlobWithoutStars(f);
    if '*' in Suffix(f) {
      StarredSuffix(name, Suffix(f));
    } else {
      SuffixIsLonger(f);
    }
  }

  // A suffix without a star that is not one of the exact ones comes from a single
  // leading star without a dot, and gets a dot of its own.
  lemma SuffixIsLonger(f: string)
    requires !TranslatedExactly(f) && '*' !in Suffix(f)
    ensures |Suffix(f)| > |WithoutStars(f)|
  {
    StarOccurs(f);
    if HasPrefix(f, "*.") {
    } else {
      var rest := if HasPrefix(f, "*") then f[1..] else f;
      assert Suffix(f)[1..] == rest;
      assert forall c | c in rest :: c in Suffix(f);
      assert HasPrefix(f, "*") && f[0] == "*"[0];
      assert WithoutStars(f) == WithoutStars(f[1..]);
    }
  }

  // Exactly the entries without a star, or with a single one in front of a dot, are
  // translated with their meaning.
  lemma EntryTranslation(f: string)
    ensures (forall name | '*' !in name :: EntryCaught(f, name) <==> Glob(f, name)) <==> TranslatedExactly(f)
  {
    if TranslatedExactly(f) {
      forall name | '*' !in name ensures EntryCaught(f, name) <==> Glob(f, name) {
        ExactEntryCatches(f, name);
      }
    } else {
      InexactEntryMisses(f);
    }
  }

  // What is caught is meant: no entry catches too much.
  lemma EntryIsSound(f: string, name: string)
    requires '*' !in name && EntryCaught(f, name)
    ensures Glob(f, name)
  {
    if TranslatedExactly(f) {
      ExactEntryCatches(f, name);
    } else {
      StarOccurs(f);
      if '*' in Suffix(f) {
        StarredSuffix(name, Suffix(f));
      }
      LeadingStarMeans(f, name);
    }
  }

  lemma LeadingStarMeans(f: string, name: string)
    requires !TranslatedExactly(f) && '*' !in Suffix(f) && HasSuffix(name, Suffix(f))
    ensures Glob(f, name)
  {
    StarOccurs(f);
    var rest := if HasPrefix(f, "*") then f[1..] else f;
    if !HasPrefix(f, "*.") {
      assert Suffix(f)[1..] == rest;
      assert forall c | c in rest :: c in Suffix(f);
      assert HasPrefix(f, "*") && f[0] == "*"[0];
      var k := |name| - |rest|;
      assert name[k..] == name[|name| - |Suffix(f)|..][1..] == rest;
      GlobOfPlain(rest, name[k..]);
    }
  }

  lemma FilterIsSound(filter: seq<string>, name: string)
    requires '*' !in name && FilterCaught(filter, name)
    ensures FilterMeant(filter, name)
  {
    var f :| f in filter && EntryCaught(f, name);
    EntryIsSound(f, name);
  }

  lemma FilterIsExact(filter: seq<string>, name: string)
    requires forall f | f in filter :: TranslatedExactly(f)
    ensures FilterCaught(filter, name) <==> FilterMeant(filter, name)
  {
    forall f | f in filter ensures EntryCaught(f, name) <==> Glob(f, name) {
      ExactEntryCatches(f, name);
    }
  }

  lemma {:induction false} GlobAfter(front: string, pattern: string, name: string)
    requires '*' !in front && Glob(pattern, name)
    ensures Glob(front + pattern, front + name)
  {
    if front == "" {
      assert front + pattern == pattern && front + name == name;
    } else {
      assert front[0] in front && forall c | c in front[1..] :: c in front;
      assert (front + pattern)[1..] == front[1..] + pattern && (front + name)[1..] == front[1..] + name;
      GlobAfter(front[1..], pattern, name);
    }
  }

  // An entry with text in front of its star filters nothing, although it is meant for
  // every name that has something in the place of the star.
  lemma StarAfterText(front: string, back: string, middle: string, name: string)
    requires front != "" && '*' !in front && '*' !in back && '*' !in name
    ensures Glob(front + ("*" + back), front + (middle + back))
    ensures !EntryCaught(front + ("*" + back), name)
  {
    var star := "*" + back;
    var f := front + star;
    assert (middle + back)[|middle|..] == back && star[1..] == back && star[0] == '*';
    GlobOfPlain(back, back);
    assert Glob(star, middle + back);
    GlobAfter(front, star, middle + back);
    assert f[|front|] == '*' && f[0] == front[0] && front[0] in front;
    StarOccurs(f);
    assert !HasPrefix(f, "*") && !HasPrefix(f, "*.");
    assert Suffix(f)[|front| + 1] == '*';
    StarredSuffix(name, Suffix(f));
  }

  lemma OneStar(front: string, back: string, middle: string)
    requires front != "" && '*' !in front && '*' !in back && '*' !in middle
    ensures FilterMeant([front + ("*" + back)], front + (middle + back))
    ensures !FilterCaught([front + ("*" + back)], front + (middle + back))
  {
    var f, name := front + ("*" + back), front + (middle + back);
    StarAfterText(front, back, middle, name);
    assert [f][0] == f;
  }

  // Such as this one.
  lemma StarInTheMiddle()
    ensures FilterMeant(["time.*.com"], "time.apple.com")
    ensures !FilterCaught(["time.*.com"], "time.apple.com")
  {
    OneStar("time.", ".com", "apple");
    assert "time." + ("*" + ".com") == "time.*.com" && "time." + ("apple" + ".com") == "time.apple.com";
  }
}
