/**
 * Java class-name helpers (bsag/utils/java.py): the dotted-name glob
 * matcher the dependency check uses, and the conversion of a source path
 * to a class name.
 */
module Java {
  import opened Text

  /**
   * The scan over the pattern and class chunks taken in pairs: an equal
   * chunk or `*` moves on, `**` matches whatever follows, anything else
   * fails; when either side runs out, the two must have had as many chunks.
   */
  function ChunksMatch(pat: seq<string>, cl: seq<string>): (r: bool)
    ensures |pat| == |cl| && (forall i :: 0 <= i < |pat| ==> pat[i] == cl[i] || pat[i] == "*") ==> r
    ensures pat == [] || cl == [] ==> (r <==> |pat| == |cl|)
  {
    if pat == [] || cl == [] then |pat| == |cl|
    else if pat[0] == cl[0] || pat[0] == "*" then ChunksMatch(pat[1..], cl[1..])
    else if pat[0] == "**" then true
    else false
  }

  /** `class_matches(pat, cl)`: both are stripped and split on dots first. */
  function ClassMatches(pat: string, cl: string): bool {
    ChunksMatch(Split(Strip(pat), '.'), Split(Strip(cl), '.'))
  }

  /** Chunk `i` passes the scan: it equals the class chunk or is `*`. */
  predicate Passes(pat: seq<string>, cl: seq<string>, i: int)
    requires 0 <= i < |pat| && i < |cl|
  {
    pat[i] == cl[i] || pat[i] == "*"
  }

  /**
   * An independent reading of the scan: either every chunk pair passes and
   * the chunk counts agree, or the first pair that does not pass has `**`
   * on the pattern side.
   */
  predicate MatchesByRule(pat: seq<string>, cl: seq<string>) {
    || (|pat| == |cl| && forall i :: 0 <= i < |pat| ==> Passes(pat, cl, i))
    || exists k :: 0 <= k < |pat| && k < |cl| && pat[k] == "**" && !Passes(pat, cl, k) &&
                   forall i :: 0 <= i < k ==> Passes(pat, cl, i)
  }

  /** The scan matches exactly when the rule says so. */
  lemma {:induction false} ChunksMatchByRule(pat: seq<string>, cl: seq<string>)
    ensures ChunksMatch(pat, cl) <==> MatchesByRule(pat, cl)
  {
    if pat == [] || cl == [] {
    } else {
      var p, c := pat[1..], cl[1..];
      ChunksMatchByRule(p, c);
      if Passes(pat, cl, 0) {
        // Every rule for the tails shifts by one chunk.
        if MatchesByRule(p, c) {
          if |p| == |c| && forall i :: 0 <= i < |p| ==> Passes(p, c, i) {
            forall i | 0 <= i < |pat|
              ensures Passes(pat, cl, i)
            {
              if i > 0 {
                assert Passes(p, c, i - 1);
              }
            }
          } else {
            var k :| 0 <= k < |p| && k < |c| && p[k] == "**" && !Passes(p, c, k) &&
                     forall i :: 0 <= i < k ==> Passes(p, c, i);
            forall i | 0 <= i < k + 1
              ensures Passes(pat, cl, i)
            {
              if i > 0 {
                assert Passes(p, c, i - 1);
              }
            }
            assert pat[k + 1] == "**" && !Passes(pat, cl, k + 1);
          }
        } else if MatchesByRule(pat, cl) {
          if |pat| == |cl| && forall i :: 0 <= i < |pat| ==> Passes(pat, cl, i) {
            forall i | 0 <= i < |p|
              ensures Passes(p, c, i)
            {
              assert Passes(pat, cl, i + 1);
            }
            assert false;
          } else {
            var k :| 0 <= k < |pat| && k < |cl| && pat[k] == "**" && !Passes(pat, cl, k) &&
                     forall i :: 0 <= i < k ==> Passes(pat, cl, i);
            assert k > 0;
            forall i | 0 <= i < k - 1
              ensures Passes(p, c, i)
            {
              assert Passes(pat, cl, i + 1);
            }
            assert false;
          }
        }
      } else if pat[0] == "**" {
        assert MatchesByRule(pat, cl);
      } else {
        assert !MatchesByRule(pat, cl);
      }
    }
  }

  /** Surrounding whitespace on the pattern or the class makes no difference. */
  lemma ClassMatchesIgnoresPadding(pat: string, cl: string)
    ensures ClassMatches(Strip(pat), Strip(cl)) == ClassMatches(pat, cl)
  {
    StripIdempotent(pat);
    StripIdempotent(cl);
  }

  /** `n` stars only ever match classes of `n` chunks, and match every such class. */
  lemma {:induction false} StarsMatchSameLength(pat: seq<string>, cl: seq<string>)
    requires forall i :: 0 <= i < |pat| ==> pat[i] == "*"
    ensures ChunksMatch(pat, cl) <==> |pat| == |cl|
  {
    if pat != [] && cl != [] {
      StarsMatchSameLength(pat[1..], cl[1..]);
    }
  }

  /** A stripped name split on its dots: the chunks it was joined from. */
  lemma ChunksOf(s: string, chunks: seq<string>)
    requires |chunks| >= 1 && s == JoinWith(chunks, '.')
    requires forall i :: 0 <= i < |chunks| ==> '.' !in chunks[i]
    requires s != [] && !IsSpace(s[0]) && !IsSpace(s[|s| - 1])
    ensures Split(Strip(s), '.') == chunks
  {
    assert AllSpace("");
    assert "" + s + "" == s;
    StripPadded("", s, "");
    SplitJoin(chunks, '.');
  }

  /** One step of the scan, on chunk lists written head first. */
  lemma MatchCons(p0: string, p: seq<string>, c0: string, c: seq<string>)
    ensures ChunksMatch([p0] + p, [c0] + c) ==
            if p0 == c0 || p0 == "*" then ChunksMatch(p, c) else p0 == "**"
  {
    assert ([p0] + p)[1..] == p && ([c0] + c)[1..] == c;
  }

  /** A dotted name of three dot-free chunks, without surrounding whitespace, splits into them. */
  lemma Dotted3(s: string, a: string, b: string, c: string)
    requires s == a + "." + b + "." + c
    requires '.' !in a && '.' !in b && '.' !in c
    requires a != [] && c != [] && !IsSpace(a[0]) && !IsSpace(c[|c| - 1])
    ensures Split(Strip(s), '.') == [a] + ([b] + ([c] + []))
  {
    Join3(a, b, c);
    ChunksOf(s, [a, b, c]);
    assert [a, b, c] == [a] + ([b] + ([c] + []));
  }

  lemma Join3(a: string, b: string, c: string)
    ensures JoinWith([a, b, c], '.') == a + "." + b + "." + c
  {
    var chunks, tail := [a, b, c], [b, c];
    assert tail[1..] == [c];
    assert JoinWith(tail, '.') == b + "." + c;
    assert chunks[1..] == tail;
    assert JoinWith(chunks, '.') == a + "." + (b + "." + c);
  }

  /** The same for two chunks. */
  lemma Dotted2(s: string, a: string, b: string)
    requires s == a + "." + b
    requires '.' !in a && '.' !in b
    requires a != [] && b != [] && !IsSpace(a[0]) && !IsSpace(b[|b| - 1])
    ensures Split(Strip(s), '.') == [a] + ([b] + [])
  {
    var chunks := [a, b];
    assert chunks[1..] == [b];
    assert JoinWith(chunks, '.') == s;
    ChunksOf(s, chunks);
    assert chunks == [a] + ([b] + []);
  }

  /** A name without dots or surrounding whitespace is a single chunk. */
  lemma Dotted1(s: string)
    requires '.' !in s && s != [] && !IsSpace(s[0]) && !IsSpace(s[|s| - 1])
    ensures Split(Strip(s), '.') == [s] + []
  {
    ChunksOf(s, [s]);
    assert [s] == [s] + [];
  }

  // The documented examples, for the class `java.lang.System`. Each
  // literal name is split by a lemma of its own.

  lemma SystemChunks(cl: string)
    requires cl == "java.lang.System"
    ensures Split(Strip(cl), '.') == ["java"] + (["lang"] + (["System"] + []))
  {
    Dotted3(cl, "java", "lang", "System");
  }

  lemma PackageStarChunks(pat: string)
    requires pat == "java.lang.*"
    ensures Split(Strip(pat), '.') == ["java"] + (["lang"] + (["*"] + []))
  {
    Dotted3(pat, "java", "lang", "*");
  }

  lemma DoubleStarChunks(pat: string)
    requires pat == "java.**"
    ensures Split(Strip(pat), '.') == ["java"] + (["**"] + [])
  {
    Dotted2(pat, "java", "**");
  }

  lemma ThreeStarsChunks(pat: string)
    requires pat == "*.*.*"
    ensures Split(Strip(pat), '.') == ["*"] + (["*"] + (["*"] + []))
  {
    Dotted3(pat, "*", "*", "*");
  }

  lemma OtherChunks(pat: string)
    requires pat == "java.lang.Other"
    ensures Split(Strip(pat), '.') == ["java"] + (["lang"] + (["Other"] + []))
  {
    Dotted3(pat, "java", "lang", "Other");
  }

  lemma OneLevelStarChunks(pat: string)
    requires pat == "java.*"
    ensures Split(Strip(pat), '.') == ["java"] + (["*"] + [])
  {
    Dotted2(pat, "java", "*");
  }

  lemma SingleStarChunks(pat: string)
    requires pat == "*"
    ensures Split(Strip(pat), '.') == ["*"] + []
  {
    Dotted1(pat);
  }

  lemma SystemMatchesItself(pat: string, cl: string)
    requires pat == "java.lang.System" && cl == "java.lang.System"
    ensures ClassMatches(pat, cl)
  {
    SystemChunks(cl);
    MatchCons("java", ["lang"] + (["System"] + []), "java", ["lang"] + (["System"] + []));
    MatchCons("lang", ["System"] + [], "lang", ["System"] + []);
    MatchCons("System", [], "System", []);
  }

  lemma SystemMatchesPackageStar(pat: string, cl: string)
    requires pat == "java.lang.*" && cl == "java.lang.System"
    ensures ClassMatches(pat, cl)
  {
    SystemChunks(cl);
    PackageStarChunks(pat);
    MatchCons("java", ["lang"] + (["*"] + []), "java", ["lang"] + (["System"] + []));
    MatchCons("lang", ["*"] + [], "lang", ["System"] + []);
    MatchCons("*", [], "System", []);
  }

  lemma SystemMatchesDoubleStar(pat: string, cl: string)
    requires pat == "java.**" && cl == "java.lang.System"
    ensures ClassMatches(pat, cl)
  {
    SystemChunks(cl);
    DoubleStarChunks(pat);
    MatchCons("java", ["**"] + [], "java", ["lang"] + (["System"] + []));
    MatchCons("**", [], "lang", ["System"] + []);
  }

  lemma SystemMatchesThreeStars(pat: string, cl: string)
    requires pat == "*.*.*" && cl == "java.lang.System"
    ensures ClassMatches(pat, cl)
  {
    SystemChunks(cl);
    ThreeStarsChunks(pat);
    MatchCons("*", ["*"] + (["*"] + []), "java", ["lang"] + (["System"] + []));
    MatchCons("*", ["*"] + [], "lang", ["System"] + []);
    MatchCons("*", [], "System", []);
  }

  lemma SystemNotOther(pat: string, cl: string)
    requires pat == "java.lang.Other" && cl == "java.lang.System"
    ensures !ClassMatches(pat, cl)
  {
    SystemChunks(cl);
    OtherChunks(pat);
    MatchCons("java", ["lang"] + (["Other"] + []), "java", ["lang"] + (["System"] + []));
    MatchCons("lang", ["Other"] + [], "lang", ["System"] + []);
    var other, system := "Other", "System";
    assert |other| != |system|;
    MatchCons("Other", [], "System", []);
  }

  lemma SystemNotOneLevelStar(pat: string, cl: string)
    requires pat == "java.*" && cl == "java.lang.System"
    ensures !ClassMatches(pat, cl)
  {
    SystemChunks(cl);
    OneLevelStarChunks(pat);
    MatchCons("java", ["*"] + [], "java", ["lang"] + (["System"] + []));
    MatchCons("*", [], "lang", ["System"] + []);
  }

  lemma SystemNotSingleStar(pat: string, cl: string)
    requires pat == "*" && cl == "java.lang.System"
    ensures !ClassMatches(pat, cl)
  {
    SystemChunks(cl);
    SingleStarChunks(pat);
    MatchCons("*", [], "java", ["lang"] + (["System"] + []));
  }

  /** `path_to_classname`: slashes become dots and a trailing `.java` is dropped. */
  function PathToClassname(path: string): (r: string)
    ensures '/' !in r
    ensures |r| <= |path|
  {
    RemoveSuffix(ReplaceChar(path, '/', '.'), ".java")
  }

  /** Replacing every slash in a slash-joined name with a dot joins the same parts with dots. */
  lemma {:induction false} ReplaceJoin(parts: seq<string>)
    requires |parts| >= 1
    requires forall i :: 0 <= i < |parts| ==> '/' !in parts[i]
    ensures ReplaceChar(JoinWith(parts, '/'), '/', '.') == JoinWith(parts, '.')
  {
    ReplaceAbsent(parts[0]);
    if |parts| > 1 {
      var t := JoinWith(parts[1..], '/');
      ReplaceJoin(parts[1..]);
      ReplaceAppend(parts[0] + ['/'], t);
      ReplaceAppend(parts[0], ['/']);
      var slash: string := ['/'];
      assert slash[1..] == [];
      assert ReplaceChar(slash, '/', '.') == ['.'];
    }
  }

  lemma {:induction false} ReplaceAbsent(s: string)
    requires '/' !in s
    ensures ReplaceChar(s, '/', '.') == s
  {
    if s != [] {
      assert '/' !in s[1..] by { assert forall i :: 0 <= i < |s| - 1 ==> s[1..][i] == s[i + 1]; }
      ReplaceAbsent(s[1..]);
    }
  }

  lemma {:induction false} ReplaceAppend(a: string, b: string)
    ensures ReplaceChar(a + b, '/', '.') == ReplaceChar(a, '/', '.') + ReplaceChar(b, '/', '.')
  {
    if a == [] {
      assert a + b == b;
    } else {
      assert (a + b)[1..] == a[1..] + b;
      ReplaceAppend(a[1..], b);
    }
  }

  /** A relative source path `a/b/C.java` names the class `a.b.C`. */
  lemma PathToClassnameOfSource(parts: seq<string>)
    requires |parts| >= 1
    requires forall i :: 0 <= i < |parts| ==> '/' !in parts[i]
    ensures PathToClassname(JoinWith(parts, '/') + ".java") == JoinWith(parts, '.')
  {
    ReplaceJoin(parts);
    ReplaceAppend(JoinWith(parts, '/'), ".java");
    ReplaceAbsent(".java");
    RemoveSuffixOf(JoinWith(parts, '.'), ".java");
  }

  /** Removing a suffix from a text that ends with it leaves the text before it. */
  lemma RemoveSuffixOf(s: string, suffix: string)
    ensures RemoveSuffix(s + suffix, suffix) == s
  {
    var t := s + suffix;
    assert t[|t| - |suffix|..] == suffix;
    assert t[..|t| - |suffix|] == s;
  }
}
