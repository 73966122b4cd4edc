/**
 * The store utilities: the university path, the user-id slug and its
 * collision probing, the result-returning wrappers around single-document
 * writes and reads, and the per-user subcollection markers.
 */
module Database {
  import opened Wrappers
  import opened Types
  import opened Text
  import opened Order
  import opened Store

  // ---------------------------------------------------------------- university path

  /** `state_city_campus`, lower-cased, with every whitespace run turned into one `_`. */
  function UniversityPath(state: string, city: string, campus: string): (r: string)
    ensures NoSpace(r)
    ensures forall i :: 0 <= i < |r| ==> !IsUpper(r[i])
  {
    var lowered := ToLowerAscii(state + "_" + city + "_" + campus);
    ReplaceSpaceRunsKeeps(lowered, '_', ch => !IsUpper(ch));
    ReplaceSpaceRuns(lowered, '_')
  }

  /** Names that are already lower-case and free of whitespace are joined unchanged. */
  lemma UniversityPathOfCleanNames(state: string, city: string, campus: string)
    requires NoSpace(state) && NoSpace(city) && NoSpace(campus)
    requires forall i :: 0 <= i < |state| ==> !IsUpper(state[i])
    requires forall i :: 0 <= i < |city| ==> !IsUpper(city[i])
    requires forall i :: 0 <= i < |campus| ==> !IsUpper(campus[i])
    ensures UniversityPath(state, city, campus) == state + "_" + city + "_" + campus
  {
    var joined := state + "_" + city + "_" + campus;
    assert forall i :: 0 <= i < |joined| ==> !IsUpper(joined[i]) && !IsSpace(joined[i]);
    assert ToLowerAscii(joined) == joined;
  }

  // ---------------------------------------------------------------- user id slug

  /** The characters the first filter keeps: ASCII letters and digits, whitespace, `-` and `'`. */
  predicate Kept(c: char)
  {
    IsAlnum(c) || IsSpace(c) || c == '-' || c == '\''
  }

  predicate IdChars(s: string)
  {
    forall i :: 0 <= i < |s| ==> IsAlnum(s[i]) || s[i] == '_'
  }

  predicate NoDoubleUnderscore(s: string)
  {
    forall i :: 0 <= i < |s| - 1 ==> !(s[i] == '_' && s[i + 1] == '_')
  }

  /** The ASCII letters and digits of s, in order. */
  function Alnums(s: string): seq<char>
    decreases |s|
  {
    if s == [] then [] else (if IsAlnum(s[0]) then [s[0]] else []) + Alnums(s[1..])
  }

  /** Removal of every character outside the kept class. */
  function KeepAllowed(s: string): (r: string)
    ensures forall i :: 0 <= i < |r| ==> Kept(r[i])
    decreases |s|
  {
    if s == [] then [] else (if Kept(s[0]) then [s[0]] else []) + KeepAllowed(s[1..])
  }

  /** `-` and `'` become `_`. */
  function DashesToUnderscores(s: string): (r: string)
    ensures |r| == |s|
    ensures forall i :: 0 <= i < |s| ==> r[i] == (if s[i] == '-' || s[i] == '\'' then '_' else s[i])
  {
    seq(|s|, i requires 0 <= i < |s| => if s[i] == '-' || s[i] == '\'' then '_' else s[i])
  }

  /** The suffix left after dropping the leading underscores. */
  function DropUnderscores(s: string): (r: string)
    ensures |r| <= |s| && r == s[|s| - |r|..]
    ensures forall i :: 0 <= i < |s| - |r| ==> s[i] == '_'
    ensures r == [] || r[0] != '_'
    decreases |s|
  {
    if s != [] && s[0] == '_' then DropUnderscores(s[1..]) else s
  }

  /** Each maximal run of `_` becomes one `_`. */
  function CollapseUnderscores(s: string): (r: string)
    ensures NoDoubleUnderscore(r)
    ensures r == [] <==> s == []
    ensures s != [] ==> r[0] == s[0]
    decreases |s|
  {
    if s == [] then []
    else if s[0] == '_' then
      var rest := CollapseUnderscores(DropUnderscores(s[1..]));
      ['_'] + rest
    else
      var rest := CollapseUnderscores(s[1..]);
      [s[0]] + rest
  }

  /** One leading and one trailing `_` are removed. */
  function StripEdgeUnderscores(s: string): (r: string)
  {
    var t := if s != [] && s[0] == '_' then s[1..] else s;
    if t != [] && t[|t| - 1] == '_' then t[..|t| - 1] else t
  }

  /** The slug pipeline: trim, filter, dashes to `_`, whitespace runs to `_`, collapse, strip. */
  function Slug(name: string): string
  {
    StripEdgeUnderscores(CollapseUnderscores(ReplaceSpaceRuns(DashesToUnderscores(KeepAllowed(Trim(name))), '_')))
  }

  lemma DashesShape(s: string)
    requires forall i :: 0 <= i < |s| ==> Kept(s[i])
    ensures forall i :: 0 <= i < |s| ==> var c := DashesToUnderscores(s)[i]; IsAlnum(c) || IsSpace(c) || c == '_'
  {
  }

  lemma ReplaceShape(s: string)
    requires forall i :: 0 <= i < |s| ==> IsAlnum(s[i]) || IsSpace(s[i]) || s[i] == '_'
    ensures IdChars(ReplaceSpaceRuns(s, '_'))
  {
    ReplaceSpaceRunsKeeps(s, '_', ch => IsAlnum(ch) || ch == '_');
  }

  lemma {:induction false} CollapseShape(s: string)
    requires IdChars(s)
    ensures IdChars(CollapseUnderscores(s))
    decreases |s|
  {
    if s != [] {
      if s[0] == '_' {
        var rest := DropUnderscores(s[1..]);
        assert forall i :: 0 <= i < |rest| ==> rest[i] == s[|s| - |rest| + i];
        CollapseShape(rest);
        assert CollapseUnderscores(s) == ['_'] + CollapseUnderscores(rest);
      } else {
        CollapseShape(s[1..]);
        assert CollapseUnderscores(s) == [s[0]] + CollapseUnderscores(s[1..]);
      }
    }
  }

  lemma StripShape(s: string)
    requires IdChars(s) && NoDoubleUnderscore(s)
    ensures IdChars(StripEdgeUnderscores(s)) && NoDoubleUnderscore(StripEdgeUnderscores(s))
    ensures var r := StripEdgeUnderscores(s); r == [] || (r[0] != '_' && r[|r| - 1] != '_')
  {
    var t := if s != [] && s[0] == '_' then s[1..] else s;
    assert IdChars(t) && NoDoubleUnderscore(t);
    assert t != [] && s[0] == '_' ==> t[0] == s[1];
    var r := StripEdgeUnderscores(s);
    if r != [] {
      assert r[0] == t[0];
      assert r[0] != '_';
    }
  }

  lemma SlugShape(name: string)
    ensures IdChars(Slug(name)) && NoDoubleUnderscore(Slug(name))
    ensures Slug(name) == [] || (Slug(name)[0] != '_' && Slug(name)[|Slug(name)| - 1] != '_')
  {
    var s1 := KeepAllowed(Trim(name));
    DashesShape(s1);
    var a := DashesToUnderscores(s1);
    ReplaceShape(a);
    var b := ReplaceSpaceRuns(a, '_');
    CollapseShape(b);
    StripShape(CollapseUnderscores(b));
  }

  /**
   * `generateUserDocumentId`: None where the source throws, which is for an
   * empty name and for a name whose slug is empty.
   */
  function GenerateUserDocumentId(name: string): (r: Option<string>)
    ensures r.Some? ==> r.value != [] && r.value[0] != '_' && r.value[|r.value| - 1] != '_'
    ensures r.Some? ==> IdChars(r.value) && NoDoubleUnderscore(r.value)
  {
    if name == "" then None
    else
      var slug := Slug(name);
      SlugShape(name);
      if slug == [] then None else Some(slug)
  }

  lemma {:induction false} AlnumsConcat(a: string, b: string)
    ensures Alnums(a + b) == Alnums(a) + Alnums(b)
    decreases |a|
  {
    if a != [] {
      var head := if IsAlnum(a[0]) then [a[0]] else [];
      assert (a + b)[0] == a[0];
      assert (a + b)[1..] == a[1..] + b;
      assert Alnums(a + b) == head + Alnums(a[1..] + b);
      AlnumsConcat(a[1..], b);
      assert Alnums(a) == head + Alnums(a[1..]);
    } else {
      assert a + b == b;
    }
  }

  lemma {:induction false} AlnumsNone(s: string)
    requires forall i :: 0 <= i < |s| ==> !IsAlnum(s[i])
    ensures Alnums(s) == []
    decreases |s|
  {
    if s != [] { AlnumsNone(s[1..]); }
  }

  lemma {:induction false} AlnumsOfSpaces(s: string)
    requires forall i :: 0 <= i < |s| ==> IsSpace(s[i])
    ensures Alnums(s) == []
    decreases |s|
  {
    if s != [] {
      SpaceNotAlnum(s[0]);
      AlnumsOfSpaces(s[1..]);
    }
  }

  /** Two strings that agree wherever either has a letter or digit have the same letters and digits. */
  lemma {:induction false} AlnumsPointwise(a: string, b: string)
    requires |a| == |b|
    requires forall i :: 0 <= i < |a| ==> (IsAlnum(a[i]) || IsAlnum(b[i])) ==> a[i] == b[i]
    ensures Alnums(a) == Alnums(b)
    decreases |a|
  {
    if a != [] { AlnumsPointwise(a[1..], b[1..]); }
  }

  lemma {:induction false} AlnumsTrimStart(s: string)
    ensures Alnums(TrimStart(s)) == Alnums(s)
    decreases |s|
  {
    if s != [] && IsSpace(s[0]) {
      SpaceNotAlnum(s[0]);
      AlnumsTrimStart(s[1..]);
    }
  }

  lemma AlnumsTrimEnd(t: string)
    ensures Alnums(TrimEnd(t)) == Alnums(t)
  {
    var r := TrimEnd(t);
    TrimEndPrefix(t);
    assert t == r + t[|r|..];
    AlnumsConcat(r, t[|r|..]);
    AlnumsOfSpaces(t[|r|..]);
  }

  lemma AlnumsTrim(s: string)
    ensures Alnums(Trim(s)) == Alnums(s)
  {
    AlnumsTrimStart(s);
    AlnumsTrimEnd(TrimStart(s));
  }

  lemma {:induction false} AlnumsKeepAllowed(s: string)
    ensures Alnums(KeepAllowed(s)) == Alnums(s)
    decreases |s|
  {
    if s != [] {
      var head := if Kept(s[0]) then [s[0]] else [];
      AlnumsConcat(head, KeepAllowed(s[1..]));
      AlnumsKeepAllowed(s[1..]);
    }
  }

  /** The letters and digits of a string that starts with c. */
  lemma AlnumsCons(c: char, t: string)
    ensures Alnums([c] + t) == (if IsAlnum(c) then [c] else []) + Alnums(t)
  {
    assert ([c] + t)[0] == c;
    assert ([c] + t)[1..] == t;
  }

  /** A string that starts with whitespace has the letters and digits of its tail. */
  lemma AlnumsAtSpace(s: string)
    requires s != [] && IsSpace(s[0])
    ensures Alnums(s) == Alnums(s[1..])
  {
    SpaceNotAlnum(s[0]);
  }

  lemma {:induction false} AlnumsReplaceSpaceRuns(s: string)
    ensures Alnums(ReplaceSpaceRuns(s, '_')) == Alnums(s)
    decreases |s|
  {
    if s != [] {
      if IsSpace(s[0]) {
        ReplaceAtSpace(s, '_');
        AlnumsCons('_', ReplaceSpaceRuns(TrimStart(s[1..]), '_'));
        AlnumsReplaceSpaceRuns(TrimStart(s[1..]));
        AlnumsTrimStart(s[1..]);
        AlnumsAtSpace(s);
      } else {
        ReplaceAtOther(s, '_');
        AlnumsCons(s[0], ReplaceSpaceRuns(s[1..], '_'));
        AlnumsReplaceSpaceRuns(s[1..]);
      }
    }
  }

  lemma AlnumsDropUnderscores(s: string)
    ensures Alnums(DropUnderscores(s)) == Alnums(s)
  {
    var r := DropUnderscores(s);
    var k := |s| - |r|;
    assert s == s[..k] + r;
    AlnumsConcat(s[..k], r);
    AlnumsNone(s[..k]);
  }

  lemma {:induction false} AlnumsCollapse(s: string)
    ensures Alnums(CollapseUnderscores(s)) == Alnums(s)
    decreases |s|
  {
    if s != [] {
      if s[0] == '_' {
        var rest := DropUnderscores(s[1..]);
        AlnumsConcat(['_'], CollapseUnderscores(rest));
        AlnumsCollapse(rest);
        AlnumsDropUnderscores(s[1..]);
      } else {
        AlnumsConcat([s[0]], CollapseUnderscores(s[1..]));
        AlnumsCollapse(s[1..]);
      }
    }
  }

  lemma AlnumsStrip(s: string)
    ensures Alnums(StripEdgeUnderscores(s)) == Alnums(s)
  {
    var t := if s != [] && s[0] == '_' then s[1..] else s;
    assert Alnums(t) == Alnums(s);
    if t != [] && t[|t| - 1] == '_' {
      assert t == t[..|t| - 1] + [t[|t| - 1]];
      AlnumsConcat(t[..|t| - 1], [t[|t| - 1]]);
    }
  }

  /** The slug keeps exactly the ASCII letters and digits of the name, in order. */
  lemma SlugAlnums(name: string)
    ensures Alnums(Slug(name)) == Alnums(name)
  {
    var s0 := Trim(name);
    AlnumsTrim(name);
    var s1 := KeepAllowed(s0);
    AlnumsKeepAllowed(s0);
    var s2 := DashesToUnderscores(s1);
    AlnumsPointwise(s1, s2);
    var s3 := ReplaceSpaceRuns(s2, '_');
    AlnumsReplaceSpaceRuns(s2);
    var s4 := CollapseUnderscores(s3);
    AlnumsCollapse(s3);
    AlnumsStrip(s4);
  }

  /**
   * `generateUserDocumentId` fails exactly when the name has no ASCII letter
   * or digit, and otherwise keeps all of them in order.
   */
  lemma GenerateUserDocumentIdFails(name: string)
    ensures GenerateUserDocumentId(name).None? <==> Alnums(name) == []
    ensures GenerateUserDocumentId(name).Some? ==> Alnums(GenerateUserDocumentId(name).value) == Alnums(name)
  {
    SlugAlnums(name);
    SlugShape(name);
    var slug := Slug(name);
    if slug != [] {
      assert IsAlnum(slug[0]);
      assert Alnums(slug) != [];
    }
  }

  /** Each space replaced by `_`. */
  function SpacesToUnderscores(s: string): (r: string)
    ensures |r| == |s| && forall i :: 0 <= i < |s| ==> r[i] == if s[i] == ' ' then '_' else s[i]
  {
    seq(|s|, i requires 0 <= i < |s| => if s[i] == ' ' then '_' else s[i])
  }

  /** Words of letters and digits separated by single spaces become the same words joined by `_`. */
  lemma SlugOfSpacedWords(name: string)
    requires name != [] && IsAlnum(name[0]) && IsAlnum(name[|name| - 1])
    requires forall i :: 0 <= i < |name| ==> IsAlnum(name[i]) || name[i] == ' '
    requires forall i :: 0 <= i < |name| - 1 ==> !(name[i] == ' ' && name[i + 1] == ' ')
    ensures Slug(name) == SpacesToUnderscores(name)
  {
    TrimOfWords(name);
    KeepAllowedOfKept(name);
    DashesOfWords(name);
    ReplaceSingleSpaces(name);
    var u := SpacesToUnderscores(name);
    WordsUnderscored(name);
    CollapseWithoutDoubles(u);
    StripOfWords(u);
  }

  lemma WordsUnderscored(s: string)
    requires s != [] && IsAlnum(s[0]) && IsAlnum(s[|s| - 1])
    requires forall i :: 0 <= i < |s| ==> IsAlnum(s[i]) || s[i] == ' '
    requires forall i :: 0 <= i < |s| - 1 ==> !(s[i] == ' ' && s[i + 1] == ' ')
    ensures var u := SpacesToUnderscores(s); NoDoubleUnderscore(u) && u[0] != '_' && u[|u| - 1] != '_'
  {
  }

  lemma TrimOfWords(s: string)
    requires s != [] && IsAlnum(s[0]) && IsAlnum(s[|s| - 1])
    ensures Trim(s) == s
  {
    TrimmedAlready(s);
  }

  lemma DashesOfWords(s: string)
    requires forall i :: 0 <= i < |s| ==> IsAlnum(s[i]) || s[i] == ' '
    ensures DashesToUnderscores(s) == s
  {
    var d := DashesToUnderscores(s);
    forall i | 0 <= i < |s| ensures d[i] == s[i] {
      assert s[i] != '-' && s[i] != '\'';
    }
  }

  lemma StripOfWords(u: string)
    requires u != [] && u[0] != '_' && u[|u| - 1] != '_'
    ensures StripEdgeUnderscores(u) == u
  {
  }

  lemma {:induction false} KeepAllowedOfKept(s: string)
    requires forall i :: 0 <= i < |s| ==> Kept(s[i])
    ensures KeepAllowed(s) == s
    decreases |s|
  {
    if s != [] { KeepAllowedOfKept(s[1..]); }
  }

  lemma {:induction false} ReplaceSingleSpaces(s: string)
    requires forall i :: 0 <= i < |s| ==> IsAlnum(s[i]) || s[i] == ' '
    requires forall i :: 0 <= i < |s| - 1 ==> !(s[i] == ' ' && s[i + 1] == ' ')
    ensures ReplaceSpaceRuns(s, '_') == SpacesToUnderscores(s)
    decreases |s|
  {
    if s != [] {
      ReplaceSingleSpaces(s[1..]);
      ReplaceSpaceRunsStep(s);
      SpacesToUnderscoresStep(s);
    }
  }

  /** One step of the whitespace replacement when no run is longer than one character. */
  lemma ReplaceSpaceRunsStep(s: string)
    requires s != [] && (s[0] == ' ' || IsAlnum(s[0]))
    requires |s| > 1 && s[0] == ' ' ==> IsAlnum(s[1])
    ensures ReplaceSpaceRuns(s, '_') == [if s[0] == ' ' then '_' else s[0]] + ReplaceSpaceRuns(s[1..], '_')
  {
    if s[0] == ' ' {
      ReplaceAtSpace(s, '_');
      if |s| > 1 {
        SpaceNotAlnum(s[1]);
      }
      TrimStartKeeps(s[1..]);
    } else {
      SpaceNotAlnum(s[0]);
      ReplaceAtOther(s, '_');
    }
  }

  lemma SpacesToUnderscoresStep(s: string)
    requires s != []
    ensures SpacesToUnderscores(s) == [if s[0] == ' ' then '_' else s[0]] + SpacesToUnderscores(s[1..])
  {
  }

  lemma {:induction false} CollapseWithoutDoubles(s: string)
    requires NoDoubleUnderscore(s)
    ensures CollapseUnderscores(s) == s
    decreases |s|
  {
    if s != [] {
      CollapseWithoutDoubles(s[1..]);
      if s[0] == '_' {
        assert s[1..] == [] || s[1] != '_';
        assert DropUnderscores(s[1..]) == s[1..];
      }
    }
  }

  /** A name of letters, digits and underscores loses its underscores: "Mary_Jane" gives "MaryJane". */
  lemma SlugDeletesUnderscores(name: string)
    requires forall i :: 0 <= i < |name| ==> IsAlnum(name[i]) || name[i] == '_'
    ensures Slug(name) == Alnums(name)
  {
    TrimOfIdChars(name);
    KeepAllowedOfIdChars(name);
    var a := Alnums(name);
    AlnumsAreAlnum(name);
    OnlyAlnumsKept(a);
  }

  lemma TrimOfIdChars(s: string)
    requires forall i :: 0 <= i < |s| ==> IsAlnum(s[i]) || s[i] == '_'
    ensures Trim(s) == s
  {
    if s != [] {
      TrimmedAlready(s);
    }
  }

  /** The stages after the first filter leave a string of letters and digits alone. */
  lemma OnlyAlnumsKept(a: string)
    requires forall i :: 0 <= i < |a| ==> IsAlnum(a[i])
    ensures StripEdgeUnderscores(CollapseUnderscores(ReplaceSpaceRuns(DashesToUnderscores(a), '_'))) == a
  {
    assert DashesToUnderscores(a) == a;
    assert NoSpace(a);
    assert ReplaceSpaceRuns(a, '_') == a;
    assert NoDoubleUnderscore(a);
    CollapseWithoutDoubles(a);
    if a != [] {
      assert IsAlnum(a[0]) && IsAlnum(a[|a| - 1]);
      assert a[0] != '_' && a[|a| - 1] != '_';
    }
  }

  lemma {:induction false} KeepAllowedOfIdChars(s: string)
    requires forall i :: 0 <= i < |s| ==> IsAlnum(s[i]) || s[i] == '_'
    ensures KeepAllowed(s) == Alnums(s)
    decreases |s|
  {
    if s != [] { KeepAllowedOfIdChars(s[1..]); }
  }

  lemma {:induction false} AlnumsAreAlnum(s: string)
    ensures forall i :: 0 <= i < |Alnums(s)| ==> IsAlnum(Alnums(s)[i])
    decreases |s|
  {
    if s != [] { AlnumsAreAlnum(s[1..]); }
  }

  // ---------------------------------------------------------------- unique user id

  /** The k-th candidate after the base id. */
  function Suffixed(base: string, k: nat): (r: string)
    ensures |r| > |base| && r[..|base|] == base
  {
    base + "_" + NatToString(k)
  }

  lemma SuffixedInjective(base: string, j: nat, k: nat)
    requires Suffixed(base, j) == Suffixed(base, k)
    ensures j == k
  {
    assert Suffixed(base, j)[|base| + 1..] == NatToString(j);
    assert Suffixed(base, k)[|base| + 1..] == NatToString(k);
    NatToStringInjective(j, k);
  }

  lemma {:induction false} SubsetCardinality<T>(a: set<T>, b: set<T>)
    requires a <= b
    ensures |a| <= |b|
    decreases |a|
  {
    if a != {} {
      var x :| x in a;
      SubsetCardinality(a - {x}, b - {x});
    }
  }

  /**
   * `generateUniqueUserId` over the ids already taken in the collection:
   * the slug itself when free, else the slug suffixed with the smallest
   * counter from 2 up whose id is free.
   */
  method GenerateUniqueUserId(taken: set<string>, baseName: string) returns (r: Option<string>)
    ensures r.None? <==> GenerateUserDocumentId(baseName).None?
    ensures r.Some? ==> r.value !in taken
    ensures r.Some? && GenerateUserDocumentId(baseName).value !in taken ==> r.value == GenerateUserDocumentId(baseName).value
    ensures r.Some? && GenerateUserDocumentId(baseName).value in taken ==>
      exists k :: k >= 2 && r.value == Suffixed(GenerateUserDocumentId(baseName).value, k) &&
        forall j :: 2 <= j < k ==> Suffixed(GenerateUserDocumentId(baseName).value, j) in taken
  {
    var id := GenerateUserDocumentId(baseName);
    if id.None? {
      return None;
    }
    var base := id.value;
    var unique := base;
    var counter: nat := 2;
    ghost var seen: set<string> := {};
    while unique in taken
      invariant counter >= 2
      invariant unique == if counter == 2 then base else Suffixed(base, counter - 1)
      invariant counter > 2 ==> base in taken
      invariant forall j :: 2 <= j < counter - 1 ==> Suffixed(base, j) in taken
      invariant seen <= taken
      invariant |seen| == counter - 2
      invariant forall x :: x in seen ==> x == base || exists j :: 2 <= j < counter - 1 && x == Suffixed(base, j)
      invariant unique !in seen
      decreases |taken| - |seen|
    {
      assert counter > 2 ==> unique == Suffixed(base, counter - 1);
      forall j | 2 <= j < counter ensures Suffixed(base, j) in taken {
        if j == counter - 1 { assert Suffixed(base, j) == unique; }
      }
      ghost var grown := seen + {unique};
      assert |grown| == |seen| + 1;
      SubsetCardinality(grown, taken);
      seen := grown;
      var next := Suffixed(base, counter);
      assert |next| > |base|;
      forall x | x in seen ensures x != next {
        if x != base && x != unique {
          var j :| 2 <= j < counter - 1 && x == Suffixed(base, j);
          if x == next { SuffixedInjective(base, j, counter); }
        } else if x == unique && counter > 2 && x == next {
          SuffixedInjective(base, counter - 1, counter);
        }
      }
      unique := next;
      counter := counter + 1;
    }
    if counter > 2 {
      assert unique == Suffixed(base, counter - 1);
    }
    r := Some(unique);
  }

  // ---------------------------------------------------------------- document wrappers

  /** A document as the read helpers return it: its id beside its fields. */
  datatype Doc<T> = Doc(id: string, data: T)

  /** A write helper's result envelope together with the collection after the write. */
  datatype Write<R, T> = Write(result: DatabaseResult<R>, docs: map<string, T>)

  function Failed<R>(error: string): (r: DatabaseResult<R>)
    ensures !r.success && r.data.None?
  {
    DatabaseResult(false, None, Some(error), None)
  }

  /** `getDocument`: an empty id fails outright, an absent one is "Document not found". */
  function GetDocument<T>(docs: map<string, T>, docId: string): (r: DatabaseResult<Doc<T>>)
    ensures r.success <==> docId != "" && docId in docs
    ensures r.success ==> r.data == Some(Doc(docId, docs[docId]))
    ensures docId == "" ==> r.error == Some("Failed to get document")
    ensures docId != "" && docId !in docs ==> r.error == Some("Document not found")
  {
    if docId == "" then Failed("Failed to get document")
    else if docId !in docs then Failed("Document not found")
    else DatabaseResult(true, Some(Doc(docId, docs[docId])), None, None)
  }

  /** `createDocumentWithCustomId`: a `set`, so an existing document under that id is replaced. */
  function CreateDocumentWithCustomId<T>(docs: map<string, T>, data: T, customId: string): (w: Write<string, T>)
    ensures w.result.success <==> customId != ""
    ensures w.result.success ==> w.result.data == Some(customId) && w.result.message == Some("Document created successfully")
    ensures w.result.success ==> GetDocument(w.docs, customId).data == Some(Doc(customId, data))
    ensures w.result.success ==> w.docs.Keys == docs.Keys + {customId}
    ensures forall k :: k in docs && k != customId ==> k in w.docs && w.docs[k] == docs[k]
    ensures !w.result.success ==> w.docs == docs && w.result.error == Some("Failed to create document")
  {
    if customId == "" then Write(Failed("Failed to create document"), docs)
    else Write(DatabaseResult(true, Some(customId), None, Some("Document created successfully")), docs[customId := data])
  }

  /** A bound on the length of every key. */
  function MaxLen(keys: set<string>): (n: nat)
    ensures forall k :: k in keys ==> |k| <= n
    decreases |keys|
  {
    if keys == {} then 0
    else
      var k := FirstKey(keys);
      var rest := MaxLen(keys - {k});
      if |k| > rest then |k| else rest
  }

  /** The store's automatic id: a non-empty id no document has. */
  function FreshKey(keys: set<string>): (k: string)
    ensures k !in keys && k != ""
  {
    seq(MaxLen(keys) + 1, _ => 'a')
  }

  /** `createDocument`: an `add` under a fresh automatic id. */
  function CreateDocument<T>(docs: map<string, T>, data: T): (w: Write<string, T>)
    ensures w.result.success && w.result.data.Some?
    ensures w.result.data.value !in docs && w.docs.Keys == docs.Keys + {w.result.data.value}
    ensures GetDocument(w.docs, w.result.data.value).data == Some(Doc(w.result.data.value, data))
    ensures forall k :: k in docs ==> k in w.docs && w.docs[k] == docs[k]
    ensures w.docs == docs[w.result.data.value := data]
  {
    var id := FreshKey(docs.Keys);
    Write(DatabaseResult(true, Some(id), None, Some("Document created successfully")), docs[id := data])
  }

  /** A created document adds exactly one to the collection. */
  lemma CreateDocumentGrowsByOne<T>(docs: map<string, T>, data: T)
    ensures |CreateDocument(docs, data).docs| == |docs| + 1
  {
    var w := CreateDocument(docs, data);
    assert w.docs.Keys == docs.Keys + {w.result.data.value};
  }

  /** `updateDocument`: a partial update of an existing document; any failure is reported, not thrown. */
  function UpdateDocument<T>(docs: map<string, T>, docId: string, patch: T -> T): (w: Write<(), T>)
    ensures w.result.success <==> docId != "" && docId in docs
    ensures w.result.success ==> GetDocument(w.docs, docId).data == Some(Doc(docId, patch(docs[docId])))
    ensures w.result.success ==> w.result.message == Some("Document updated successfully")
    ensures w.docs.Keys == docs.Keys
    ensures forall k :: k in docs && k != docId ==> w.docs[k] == docs[k]
    ensures !w.result.success ==> w.docs == docs && w.result.error == Some("Failed to update document")
  {
    if docId == "" || docId !in docs then Write(Failed("Failed to update document"), docs)
    else Write(DatabaseResult(true, None, None, Some("Document updated successfully")), docs[docId := patch(docs[docId])])
  }

  /** `deleteDocument`: deleting an absent document succeeds. */
  function DeleteDocument<T>(docs: map<string, T>, docId: string): (w: Write<(), T>)
    ensures w.result.success <==> docId != ""
    ensures w.result.success ==> GetDocument(w.docs, docId).error == Some("Document not found")
    ensures w.result.success ==> w.docs.Keys == docs.Keys - {docId} && w.result.message == Some("Document deleted successfully")
    ensures forall k :: k in docs && k != docId ==> k in w.docs && w.docs[k] == docs[k]
    ensures !w.result.success ==> w.docs == docs && w.result.error == Some("Failed to delete document")
  {
    if docId == "" then Write(Failed("Failed to delete document"), docs)
    else Write(DatabaseResult(true, None, None, Some("Document deleted successfully")), docs - {docId})
  }

  lemma DeleteIdempotent<T>(docs: map<string, T>, docId: string)
    ensures DeleteDocument(DeleteDocument(docs, docId).docs, docId).docs == DeleteDocument(docs, docId).docs
  {
  }

  // ---------------------------------------------------------------- user subcollections

  /** The six subcollections every user gets, in the order they are prepared. */
  const UserSubcollections: seq<string> :=
    ["checklists", "availability", "requestedMeetings", "meetings", "notes", "ratings"]

  function SubcollectionMarkerFor(userId: string, name: string, createdBy: string, now: int): (m: SubcollectionMarker)
    ensures m.initialized && m.userId == userId && m.collectionName == name && m.version == 1
  {
    SubcollectionMarker(true, userId, name, now, createdBy, 1)
  }

  /** The markers for one user, keyed by subcollection, in the order the names are listed. */
  function MarkersFor(userId: string, createdBy: string, now: int, names: seq<string>): (m: map<string, SubcollectionMarker>)
    ensures forall n :: n in m <==> n in names
    ensures forall n :: n in m ==> m[n] == SubcollectionMarkerFor(userId, n, createdBy, now)
    decreases |names|
  {
    if names == [] then map[]
    else
      var last := names[|names| - 1];
      MarkersFor(userId, createdBy, now, names[..|names| - 1])[last := SubcollectionMarkerFor(userId, last, createdBy, now)]
  }

  datatype SubcollectionReport = SubcollectionReport(created: seq<string>, failed: seq<string>)

  /** One more name in the preparation loop is one more marker. */
  lemma MarkersForNext(userId: string, createdBy: string, now: int, names: seq<string>, i: nat)
    requires i < |names|
    ensures names[..i + 1] == names[..i] + [names[i]]
    ensures MarkersFor(userId, createdBy, now, names[..i + 1]) ==
      MarkersFor(userId, createdBy, now, names[..i])[names[i] := SubcollectionMarkerFor(userId, names[i], createdBy, now)]
  {
    assert names[..i + 1][..i] == names[..i];
  }

  /** The preparation loop: every listed subcollection is reported as created and gets its marker. */
  method PrepareMarkers(userId: string, createdBy: string, now: int, names: seq<string>)
    returns (created: seq<string>, batch: map<string, SubcollectionMarker>)
    ensures created == names
    ensures batch == MarkersFor(userId, createdBy, now, names)
  {
    created, batch := [], map[];
    for i := 0 to |names|
      invariant created == names[..i]
      invariant batch == MarkersFor(userId, createdBy, now, names[..i])
    {
      MarkersForNext(userId, createdBy, now, names, i);
      batch := batch[names[i] := SubcollectionMarkerFor(userId, names[i], createdBy, now)];
      created := created + [names[i]];
    }
    assert names[..|names|] == names;
  }

  lemma SixSubcollections()
    ensures |UserSubcollections| == 6 && NatToString(|UserSubcollections|) == "6"
  {
  }

  /**
   * `initializeUserSubcollections`: one `_metadata` marker per subcollection,
   * committed together on top of the user's existing markers. An empty
   * university path or user id makes the document reference throw, which
   * the helper reports as a failure.
   */
  method InitializeUserSubcollections(t: Tenant, universityPath: string, userId: string, createdBy: string, now: int)
    returns (r: DatabaseResult<SubcollectionReport>)
    modifies t
    ensures universityPath == "" || userId == "" ==> !r.success && t.state == old(t.state)
    ensures universityPath != "" && userId != "" ==>
      r.success && r.data == Some(SubcollectionReport(UserSubcollections, [])) &&
      r.message == Some("Initialized " + NatToString(6) + "/" + NatToString(6) + " subcollections for user " + userId) &&
      t.state == old(t.state).(userMarkers := old(t.state.userMarkers)[userId :=
        (if userId in old(t.state.userMarkers) then old(t.state.userMarkers)[userId] else map[]) + MarkersFor(userId, createdBy, now, UserSubcollections)])
  {
    if universityPath == "" || userId == "" {
      return Failed("Failed to initialize subcollections: invalid document path");
    }
    var created, batch := PrepareMarkers(userId, createdBy, now, UserSubcollections);
    var failed: seq<string> := [];
    SixSubcollections();
    if |created| > 0 {
      var existing := if userId in t.state.userMarkers then t.state.userMarkers[userId] else map[];
      t.state := t.state.(userMarkers := t.state.userMarkers[userId := existing + batch]);
    }
    var message := "Initialized " + NatToString(|created|) + "/" + NatToString(|UserSubcollections|) + " subcollections for user " + userId;
    r := DatabaseResult(true, Some(SubcollectionReport(created, failed)), None, Some(message));
  }
}
