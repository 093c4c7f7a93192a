/** util.go: whitespace collapsing and identifier sanitising. */
module Util {
  import opened GoStrings

  // ---- clean ------------------------------------------------------------

  /** clean: join the arguments with one space, then keep only the
      whitespace-separated words, one space apart. */
  function Clean(ss: seq<string>): string {
    Join(Fields(Join(ss, " ")), " ")
  }

  /** A cleaned string: its only whitespace is the plain space, it neither
      starts nor ends with one, and never holds two in a row. */
  predicate IsClean(t: string) {
    && (forall i :: 0 <= i < |t| && IsSpace(t[i]) ==> t[i] == ' ')
    && (t != [] ==> t[0] != ' ' && t[|t| - 1] != ' ')
    && (forall i :: 0 <= i < |t| - 1 ==> !(t[i] == ' ' && t[i + 1] == ' '))
  }

  /** Words as strings.Fields yields them: non-empty and without whitespace. */
  predicate AreWords(ws: seq<string>) {
    forall k :: 0 <= k < |ws| ==> ws[k] != [] && SpaceFree(ws[k])
  }

  /** Words joined by single spaces form a clean string that starts with the
      first word. */
  lemma {:induction false} JoinWordsClean(ws: seq<string>)
    requires AreWords(ws)
    ensures IsClean(Join(ws, " "))
    ensures ws != [] ==> |ws[0]| <= |Join(ws, " ")| && Join(ws, " ")[..|ws[0]|] == ws[0]
  {
    if |ws| == 1 {
      assert Join(ws, " ") == ws[0];
    } else if |ws| > 1 {
      var w, rest := ws[0], ws[1..];
      assert AreWords(rest) by {
        forall k | 0 <= k < |rest| ensures rest[k] != [] && SpaceFree(rest[k]) {
          assert rest[k] == ws[k + 1];
        }
      }
      JoinWordsClean(rest);
      var j := Join(rest, " ");
      var t := Join(ws, " ");
      assert t == w + " " + j;
      assert j != [] && j[0] != ' ' by {
        assert j[..|rest[0]|] == rest[0];
        assert j[0] == rest[0][0];
      }
      forall i | 0 <= i < |t| && IsSpace(t[i]) ensures t[i] == ' ' {
        if i > |w| { assert t[i] == j[i - |w| - 1]; }
      }
      forall i | 0 <= i < |t| - 1 ensures !(t[i] == ' ' && t[i + 1] == ' ') {
        if i < |w| {
          assert t[i] == w[i];
        } else if i == |w| {
          assert t[i + 1] == j[0];
        } else {
          assert t[i] == j[i - |w| - 1] && t[i + 1] == j[i - |w|];
        }
      }
      assert t[0] == w[0];
      assert t[|t| - 1] == j[|j| - 1];
      assert t[..|w|] == w;
    }
  }

  /** A word followed by whitespace (or nothing) is the first field. */
  lemma {:induction false} WordLengthOfWord(w: string, t: string)
    requires SpaceFree(w)
    requires t == [] || IsSpace(t[0])
    ensures WordLength(w + t) == |w|
  {
    if w != [] {
      assert (w + t)[1..] == w[1..] + t;
      WordLengthOfWord(w[1..], t);
    } else {
      assert w + t == t;
    }
  }

  /** strings.Fields gives back the words that were joined by single spaces. */
  lemma {:induction false} FieldsOfJoin(ws: seq<string>)
    requires AreWords(ws)
    ensures Fields(Join(ws, " ")) == ws
  {
    if |ws| == 1 {
      WordLengthOfWord(ws[0], "");
      assert ws[0] + "" == ws[0];
      assert ws[0][|ws[0]|..] == [];
    } else if |ws| > 1 {
      var w, rest := ws[0], ws[1..];
      assert AreWords(rest) by {
        forall k | 0 <= k < |rest| ensures rest[k] != [] && SpaceFree(rest[k]) {
          assert rest[k] == ws[k + 1];
        }
      }
      FieldsOfJoin(rest);
      var j := Join(rest, " ");
      var t := Join(ws, " ");
      assert t == w + (" " + j);
      WordLengthOfWord(w, " " + j);
      assert t[..|w|] == w;
      assert t[|w|..] == " " + j;
      assert (" " + j)[1..] == j;
      assert Fields(t) == [w] + Fields(" " + j);
    }
  }

  /** The output of clean has no leading, trailing or doubled space. */
  lemma CleanIsClean(ss: seq<string>)
    ensures IsClean(Clean(ss))
  {
    JoinWordsClean(Fields(Join(ss, " ")));
  }

  /** clean is idempotent. */
  lemma CleanIdempotent(ss: seq<string>)
    ensures Clean([Clean(ss)]) == Clean(ss)
  {
    FieldsOfJoin(Fields(Join(ss, " ")));
  }

  /** A string that is already clean is left unchanged by clean. */
  lemma {:induction false} CleanFixedPoint(t: string)
    requires IsClean(t)
    ensures Clean([t]) == t
    decreases |t|
  {
    if t != [] {
      var n := WordLength(t);
      assert n >= 1;
      if n == |t| {
        assert t[..n] == t;
        assert Fields(t) == [t];
      } else {
        var rest := t[n + 1..];
        assert t[n] == ' ';
        assert n + 1 < |t|;
        assert t[n + 1] != ' ';
        assert IsClean(rest) by {
          forall i | 0 <= i < |rest| - 1 ensures !(rest[i] == ' ' && rest[i + 1] == ' ') {
            assert rest[i] == t[n + 1 + i] && rest[i + 1] == t[n + 2 + i];
          }
        }
        CleanFixedPoint(rest);
        assert Join([rest], " ") == rest;
        assert t[n..][1..] == rest;
        assert Fields(t) == [t[..n]] + Fields(rest);
        var fr := Fields(rest);
        assert fr != [];
        assert Join([t[..n]] + fr, " ") == t[..n] + " " + Join(fr, " ");
        assert t == t[..n] + " " + rest;
      }
    }
  }

  /** clean(a, b) cleans the single string a + " " + b. */
  lemma CleanPair(a: string, b: string)
    ensures Clean([a, b]) == Clean([a + " " + b])
  {
    assert Join([a, b], " ") == a + " " + Join([b], " ");
  }

  // ---- Replace ----------------------------------------------------------

  /** The characters an identifier may keep: letters, digits, - _ . / */
  predicate Allowed(c: char) {
    IsLetter(c) || IsDigit(c) || c == '-' || c == '_' || c == '.' || c == '/'
  }

  /** What Replace's loop accumulates from `s` with the flag `replaced`: each
      allowed character kept, each run of the others turned into one
      `replacement`. */
  function Sanitized(s: string, replacement: string, replaced: bool): string {
    if s == [] then ""
    else if Allowed(s[0]) then [s[0]] + Sanitized(s[1..], replacement, false)
    else if !replaced then replacement + Sanitized(s[1..], replacement, true)
    else Sanitized(s[1..], replacement, true)
  }

  const EmptyResultMessage: string := "clean result is empty"

  /** Replace sanitises `s`, failing when nothing is left. */
  method Replace(s: string, replacement: string) returns (r: Result<string>)
    ensures r.Err? <==> Sanitized(s, replacement, false) == []
    ensures r.Ok? ==> r.value == Sanitized(s, replacement, false)
    ensures r.Err? ==> r.message == EmptyResultMessage
  {
    var rest := s;
    var c := "";
    var replaced := false;
    while |rest| > 0
      invariant c + Sanitized(rest, replacement, replaced) == Sanitized(s, replacement, false)
      decreases |rest|
    {
      var ch := rest[0];
      if Allowed(ch) {
        c := c + [ch];
        replaced := false;
      } else if !replaced {
        c := c + replacement;
        replaced := true;
      }
      rest := rest[1..];
    }
    if |c| == 0 {
      return Err(EmptyResultMessage);
    }
    return Ok(c);
  }

  /** replace: Replace with "_", the error discarded. */
  method ReplaceName(name: string) returns (r: string)
    ensures r == SanitizedName(name)
  {
    var res := Replace(name, "_");
    r := if res.Ok? then res.value else "";
  }

  /** The name `replace` produces. */
  function SanitizedName(name: string): string {
    Sanitized(name, "_", false)
  }

  /** Every output character is allowed or comes from the replacement. */
  lemma {:induction false} SanitizedChars(s: string, replacement: string, replaced: bool)
    ensures forall i :: 0 <= i < |Sanitized(s, replacement, replaced)| ==>
      Allowed(Sanitized(s, replacement, replaced)[i]) || Sanitized(s, replacement, replaced)[i] in replacement
  {
    if s != [] {
      SanitizedChars(s[1..], replacement, Allowed(s[0]) == false);
      var r := Sanitized(s, replacement, replaced);
      var tail := Sanitized(s[1..], replacement, !Allowed(s[0]));
      var head := if Allowed(s[0]) then [s[0]] else if !replaced then replacement else "";
      assert r == head + tail;
      forall i | 0 <= i < |r| ensures Allowed(r[i]) || r[i] in replacement {
        if i >= |head| { assert r[i] == tail[i - |head|]; }
      }
    }
  }

  /** With "_" every character of replace's output is a letter, a digit or
      one of - _ . / */
  lemma SanitizedNameAllowed(name: string)
    ensures forall i :: 0 <= i < |SanitizedName(name)| ==> Allowed(SanitizedName(name)[i])
  {
    SanitizedChars(name, "_", false);
  }

  /** A string of allowed characters passes through unchanged. */
  lemma {:induction false} SanitizedIdentity(s: string, replacement: string, replaced: bool)
    requires forall i :: 0 <= i < |s| ==> Allowed(s[i])
    ensures Sanitized(s, replacement, replaced) == s
  {
    if s != [] {
      SanitizedIdentity(s[1..], replacement, false);
    }
  }

  /** An allowed, non-empty prefix passes through and resets the flag. */
  lemma {:induction false} SanitizedAllowedPrefix(a: string, rest: string, replacement: string, replaced: bool)
    requires a != [] && forall i :: 0 <= i < |a| ==> Allowed(a[i])
    ensures Sanitized(a + rest, replacement, replaced) == a + Sanitized(rest, replacement, false)
  {
    assert (a + rest)[0] == a[0];
    assert (a + rest)[1..] == a[1..] + rest;
    if |a| == 1 {
      assert a[1..] + rest == rest;
    } else {
      SanitizedAllowedPrefix(a[1..], rest, replacement, false);
    }
  }

  /** Words of allowed characters joined by single spaces come out joined by
      the replacement instead. */
  lemma {:induction false} SanitizedJoin(ws: seq<string>, replacement: string)
    requires |ws| >= 1
    requires forall k :: 0 <= k < |ws| ==> ws[k] != [] && forall i :: 0 <= i < |ws[k]| ==> Allowed(ws[k][i])
    ensures Sanitized(Join(ws, " "), replacement, false) == Join(ws, replacement)
  {
    if |ws| == 1 {
      SanitizedIdentity(ws[0], replacement, false);
    } else {
      var rest := ws[1..];
      assert forall k :: 0 <= k < |rest| ==> rest[k] == ws[k + 1];
      SanitizedJoin(rest, replacement);
      var j := Join(rest, " ");
      assert Join(ws, " ") == ws[0] + (" " + j);
      SanitizedAllowedPrefix(ws[0], " " + j, replacement, false);
      assert (" " + j)[1..] == j;
      assert j[0] == rest[0][0];
      assert Sanitized(j, replacement, true) == Sanitized(j, replacement, false);
    }
  }

  /** replace is idempotent. */
  lemma SanitizedNameIdempotent(name: string)
    ensures SanitizedName(SanitizedName(name)) == SanitizedName(name)
  {
    SanitizedNameAllowed(name);
    SanitizedIdentity(SanitizedName(name), "_", false);
  }

  /** Once a run has been replaced, the rest of the run adds nothing. */
  lemma {:induction false} SanitizedRunTail(run: string, rest: string, replacement: string)
    requires forall i :: 0 <= i < |run| ==> !Allowed(run[i])
    ensures Sanitized(run + rest, replacement, true) == Sanitized(rest, replacement, true)
  {
    if run != [] {
      assert (run + rest)[1..] == run[1..] + rest;
      SanitizedRunTail(run[1..], rest, replacement);
    } else {
      assert run + rest == rest;
    }
  }

  /** A maximal run of disallowed characters becomes exactly one replacement,
      whichever flag the loop arrives with. */
  lemma SanitizedRun(run: string, rest: string, replacement: string)
    requires run != [] && forall i :: 0 <= i < |run| ==> !Allowed(run[i])
    requires rest == [] || Allowed(rest[0])
    ensures Sanitized(run + rest, replacement, false) == replacement + Sanitized(rest, replacement, false)
    ensures Sanitized(run + rest, replacement, true) == Sanitized(rest, replacement, false)
  {
    assert (run + rest)[0] == run[0];
    assert (run + rest)[1..] == run[1..] + rest;
    SanitizedRunTail(run[1..], rest, replacement);
  }

  /** The allowed characters of `s`, in order. */
  function Kept(s: string): (k: string)
    ensures |k| <= |s|
  {
    if s == [] then "" else (if Allowed(s[0]) then [s[0]] else "") + Kept(s[1..])
  }

  /** Allowed characters reach the output unchanged and in their order: with no
      replacement the output is exactly the allowed characters, and a
      replacement made of disallowed characters only adds characters that are
      not kept. */
  lemma {:induction false} SanitizedKeepsAllowed(s: string, replacement: string, replaced: bool)
    ensures Sanitized(s, "", replaced) == Kept(s)
    ensures Kept(replacement) == "" ==> Kept(Sanitized(s, replacement, replaced)) == Kept(s)
  {
    if s != [] {
      SanitizedKeepsAllowed(s[1..], replacement, !Allowed(s[0]));
      var tail := Sanitized(s[1..], replacement, !Allowed(s[0]));
      if Allowed(s[0]) {
        KeptConcat([s[0]], tail);
      } else if !replaced {
        KeptConcat(replacement, tail);
      }
    }
  }

  /** `a` can be read off `b` left to right, skipping characters of `b`. */
  predicate IsSubseq(a: string, b: string)
    decreases |b|
  {
    a == [] || (b != [] && ((a[0] == b[0] && IsSubseq(a[1..], b[1..])) || IsSubseq(a, b[1..])))
  }

  /** Whatever the replacement, the allowed characters of the input appear in
      the output in their original order. */
  lemma {:induction false} SanitizedKeepsOrder(s: string, replacement: string, replaced: bool)
    ensures IsSubseq(Kept(s), Sanitized(s, replacement, replaced))
  {
    if s != [] {
      var tail := Sanitized(s[1..], replacement, !Allowed(s[0]));
      SanitizedKeepsOrder(s[1..], replacement, !Allowed(s[0]));
      if Allowed(s[0]) {
        var k := Kept(s);
        var r := Sanitized(s, replacement, replaced);
        assert k == [s[0]] + Kept(s[1..]) && r == [s[0]] + tail;
        assert k[1..] == Kept(s[1..]) && r[1..] == tail;
        assert IsSubseq(k[1..], r[1..]);
      } else {
        var head := if !replaced then replacement else "";
        assert Sanitized(s, replacement, replaced) == head + tail;
        assert Kept(s) == "" + Kept(s[1..]) == Kept(s[1..]);
        SubseqPrefix(head, Kept(s[1..]), tail);
      }
    }
  }

  lemma {:induction false} SubseqPrefix(p: string, a: string, b: string)
    requires IsSubseq(a, b)
    ensures IsSubseq(a, p + b)
  {
    if p == [] {
      assert p + b == b;
    } else {
      assert (p + b)[1..] == p[1..] + b;
      SubseqPrefix(p[1..], a, b);
    }
  }

  lemma {:induction false} KeptConcat(a: string, b: string)
    ensures Kept(a + b) == Kept(a) + Kept(b)
  {
    if a != [] {
      assert (a + b)[1..] == a[1..] + b;
      KeptConcat(a[1..], b);
    } else {
      assert a + b == b;
    }
  }

  /** With a replacement of at most one character the output is no longer
      than the input. */
  lemma {:induction false} SanitizedLength(s: string, replacement: string, replaced: bool)
    requires |replacement| <= 1
    ensures |Sanitized(s, replacement, replaced)| <= |s|
  {
    if s != [] {
      SanitizedLength(s[1..], replacement, !Allowed(s[0]));
    }
  }

  /** With a non-empty replacement, Replace fails exactly on the empty input;
      replace then yields "". */
  lemma SanitizedEmpty(s: string, replacement: string)
    requires replacement != []
    ensures Sanitized(s, replacement, false) == [] <==> s == []
  {
  }

  /** replace("CPU 1") is "CPU_1". */
  lemma SanitizedNameExample()
    ensures SanitizedName("CPU 1") == "CPU_1"
  {
  }
}
