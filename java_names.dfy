/**
 * `toJavaName` and `javaBuildInClass` of common.js: turning a user's name
 * into a Java identifier, and the table of built-in Java classes.
 */
module JavaNames {
  import opened Wrappers
  import opened ClassNames

  /** The characters of the class `[A-Za-z_0-9]`. */
  predicate IsWordChar(c: char)
  {
    ('A' <= c <= 'Z') || ('a' <= c <= 'z') || c == '_' || ('0' <= c <= '9')
  }

  predicate AllWord(s: string)
  {
    forall i :: 0 <= i < |s| ==> IsWordChar(s[i])
  }

  /** Where the first character outside `[A-Za-z_0-9]` sits, or `|s|`. */
  function FirstNonWord(s: string): (r: nat)
    ensures r <= |s| && AllWord(s[..r])
    ensures r < |s| ==> !IsWordChar(s[r])
    decreases |s|
  {
    if |s| == 0 || !IsWordChar(s[0]) then 0
    else
      var rest := FirstNonWord(s[1..]);
      assert s[..1 + rest] == [s[0]] + s[1..][..rest];
      1 + rest
  }

  /** The end of the run of non-word characters that starts at `i`. */
  function RunEnd(s: string, i: nat): (r: nat)
    requires i <= |s|
    ensures i <= r <= |s|
    ensures forall k :: i <= k < r ==> !IsWordChar(s[k])
    ensures r < |s| ==> IsWordChar(s[r])
    decreases |s| - i
  {
    if i == |s| || IsWordChar(s[i]) then i else RunEnd(s, i + 1)
  }

  /** `name.replace(/[^A-Za-z_0-9]+/, '_')`: the leftmost longest run, and only that one, becomes '_'. */
  function ReplaceFirstRun(s: string): string
  {
    var i := FirstNonWord(s);
    if i == |s| then s else s[..i] + "_" + s[RunEnd(s, i)..]
  }

  /** `toLocaleUpperCase` on one character, for ASCII letters. */
  function UpperChar(c: char): (r: char)
    ensures 'a' <= c <= 'z' ==> 'A' <= r <= 'Z'
    ensures !('a' <= c <= 'z') ==> r == c
  {
    if 'a' <= c <= 'z' then (c as int - 32) as char else c
  }

  /** `s.charAt(0).toLocaleUpperCase() + s.slice(1)`. */
  function UpperFirst(s: string): string
  {
    if |s| == 0 then "" else [UpperChar(s[0])] + s[1..]
  }

  function ToJavaName(name: string): string
  {
    UpperFirst(ReplaceFirstRun(name))
  }

  /** Nothing after the first run of non-word characters is outside `[A-Za-z_0-9]`. */
  predicate AtMostOneRun(s: string)
  {
    var i := FirstNonWord(s);
    i == |s| || AllWord(s[RunEnd(s, i)..])
  }

  /**
   * A name that is already a word keeps every character but the first,
   * which is upper-cased.
   */
  lemma ToJavaNameOfWord(name: string)
    requires AllWord(name)
    ensures ToJavaName(name) == UpperFirst(name)
  {
    assert name[..|name|] == name;
  }

  /**
   * The first run of characters outside `[A-Za-z_0-9]` becomes one '_';
   * what comes after it is kept character for character, so later runs
   * survive; the first character is upper-cased.
   */
  lemma ToJavaNameShape(name: string)
    requires FirstNonWord(name) < |name|
    ensures var i := FirstNonWord(name);
            var j := RunEnd(name, i);
            var r := ToJavaName(name);
            && |r| == i + 1 + (|name| - j)
            && r[i + 1..] == name[j..]
            && (i == 0 ==> r[0] == '_')
            && (i > 0 ==> r[0] == UpperChar(name[0]) && r[1..i] == name[1..i])
            && r[i] == '_'
  {
    var i := FirstNonWord(name);
    UpperFirstSplice(name, i, RunEnd(name, i));
  }

  lemma UpperFirstSplice(name: string, i: nat, j: nat)
    requires i <= j <= |name|
    ensures var r := UpperFirst(name[..i] + "_" + name[j..]);
            && |r| == i + 1 + (|name| - j)
            && r[i + 1..] == name[j..]
            && (i == 0 ==> r[0] == '_')
            && (i > 0 ==> r[0] == UpperChar(name[0]) && r[1..i] == name[1..i])
            && r[i] == '_'
  {
    var t := name[..i] + "_" + name[j..];
    var r := UpperFirst(t);
    UpperFirstShape(t);
    assert t[i] == '_' && t[i + 1..] == name[j..];
    assert r[i + 1..] == r[1..][i..] == t[1..][i..] == t[i + 1..];
    if i > 0 {
      assert t[1..i] == name[1..i];
      assert r[1..i] == r[1..][..i - 1] == t[1..][..i - 1] == t[1..i];
      assert r[i] == r[1..][i - 1] == t[i];
    }
  }

  lemma UpperFirstShape(t: string)
    ensures |UpperFirst(t)| == |t|
    ensures |t| > 0 ==> UpperFirst(t)[0] == UpperChar(t[0]) && UpperFirst(t)[1..] == t[1..]
  {
  }

  lemma UpperCharKeepsWord(c: char)
    requires IsWordChar(c)
    ensures IsWordChar(UpperChar(c))
  {
  }

  /** A name with at most one run of other characters becomes a string of word characters only. */
  lemma ToJavaNameIsWord(name: string)
    requires AtMostOneRun(name)
    ensures AllWord(ToJavaName(name))
  {
    var i := FirstNonWord(name);
    var t := ReplaceFirstRun(name);
    assert AllWord(t) by {
      if i < |name| {
        var j := RunEnd(name, i);
        assert t == name[..i] + "_" + name[j..];
        forall k | 0 <= k < |t| ensures IsWordChar(t[k]) {
          if k < i {
            assert t[k] == name[..i][k];
          } else if k > i {
            assert t[k] == name[j..][k - i - 1];
          }
        }
      } else {
        assert name[..i] == name;
      }
    }
    if |t| > 0 {
      UpperCharKeepsWord(t[0]);
      assert forall k :: 1 <= k < |t| ==> UpperFirst(t)[k] == t[k];
    }
  }

  lemma UpperFirstIdempotent(s: string)
    ensures UpperFirst(UpperFirst(s)) == UpperFirst(s)
  {
  }

  /** Converting a converted name again changes nothing, when the first pass left only word characters. */
  lemma ToJavaNameIdempotent(name: string)
    requires AtMostOneRun(name)
    ensures ToJavaName(ToJavaName(name)) == ToJavaName(name)
  {
    ToJavaNameIsWord(name);
    ToJavaNameOfWord(ToJavaName(name));
    UpperFirstIdempotent(ReplaceFirstRun(name));
  }

  /** Only the first run is replaced: the space becomes '_', the '-' stays. */
  lemma ToJavaNameExample()
    ensures ToJavaName("my x-y") == "My_x-y"
    ensures !AllWord(ToJavaName("my x-y"))
  {
    var s := "my x-y";
    assert IsWordChar(s[0]) && IsWordChar(s[1]) && !IsWordChar(s[2]) && IsWordChar(s[3]);
    assert FirstNonWord(s[2..]) == 0;
    assert FirstNonWord(s[1..]) == 1;
    assert RunEnd(s, 3) == 3;
    assert ReplaceFirstRun(s) == "my_x-y";
    assert !IsWordChar("My_x-y"[4]);
  }

  /**
   * `name.replace(/[^A-Za-z_0-9]+/g, '_')`: every run of characters outside
   * `[A-Za-z_0-9]` becomes one '_', the replacement the promised "valid java
   * name" needs; the source's regex lacks the `g` flag.
   */
  function ReplaceAllRuns(s: string): (r: string)
    ensures AllWord(r) && |r| <= |s|
    ensures AllWord(s) ==> r == s
    decreases |s|
  {
    if |s| == 0 then ""
    else if IsWordChar(s[0]) then
      assert s == [s[0]] + s[1..];
      [s[0]] + ReplaceAllRuns(s[1..])
    else "_" + ReplaceAllRuns(s[RunEnd(s, 0)..])
  }

  /** `toJavaName` with the global replacement. */
  function ToJavaNameAll(name: string): string
  {
    UpperFirst(ReplaceAllRuns(name))
  }

  /** With every run replaced, any name becomes a string of word characters. */
  lemma ToJavaNameAllIsWord(name: string)
    ensures AllWord(ToJavaNameAll(name))
  {
    var t := ReplaceAllRuns(name);
    if |t| > 0 {
      UpperCharKeepsWord(t[0]);
      assert forall k :: 1 <= k < |t| ==> UpperFirst(t)[k] == t[k];
    }
  }

  /** Where the source's single replacement already leaves a word, the global one gives the same name. */
  lemma ToJavaNameAllAgrees(name: string)
    requires AtMostOneRun(name)
    ensures ToJavaNameAll(name) == ToJavaName(name)
  {
    ReplaceAgrees(name);
  }

  /** The corrected name of the example: both runs become '_'. */
  lemma ToJavaNameAllExample()
    ensures ToJavaNameAll("a b-c") == "A_b_c"
  {
    var s := "a b-c";
    assert RunEnd(s[1..], 0) == 1;
    assert RunEnd(s[1..][2..], 0) == 1;
    assert ReplaceAllRuns(s[1..][2..][1..]) == "c";
    assert ReplaceAllRuns(s[1..][2..]) == "_c";
    assert ReplaceAllRuns(s[1..][1..]) == "b_c";
    assert ReplaceAllRuns(s[1..]) == "_b_c";
  }

  lemma ReplaceAgrees(s: string)
    requires AtMostOneRun(s)
    ensures ReplaceAllRuns(s) == ReplaceFirstRun(s)
  {
    var i := FirstNonWord(s);
    if i == |s| {
      assert s[..i] == s;
    } else {
      ReplaceAtFirstRun(s, i);
    }
  }

  /** At the first run, with only word characters behind it, the global replacement does what the single one does. */
  lemma ReplaceAtFirstRun(s: string, i: nat)
    requires i < |s| && AllWord(s[..i]) && !IsWordChar(s[i]) && AllWord(s[RunEnd(s, i)..])
    ensures ReplaceAllRuns(s) == s[..i] + "_" + s[RunEnd(s, i)..]
  {
    var w, t, rest := s[..i], s[i..], s[RunEnd(s, i)..];
    Halves(s, i);
    SuffixAfterRun(s, i);
    ReplaceAtRun(w, t, rest);
  }

  lemma HeadTail(w: string, t: string)
    requires |w| > 0
    ensures (w + t)[0] == w[0] && (w + t)[1..] == w[1..] + t && w == [w[0]] + w[1..]
  {
  }

  lemma Halves(s: string, i: nat)
    requires i <= |s|
    ensures s[..i] + s[i..] == s
  {
  }

  /** What follows the first run of the suffix at `i` is what follows the run at `i` in `s`. */
  lemma SuffixAfterRun(s: string, i: nat)
    requires i <= |s|
    ensures s[i..][RunEnd(s[i..], 0)..] == s[RunEnd(s, i)..]
  {
    RunEndShift(s, i, i);
  }

  /**
   * A word `w`, then a run of other characters, then a word `rest`: the
   * global replacement turns the run into one '_'.
   */
  lemma ReplaceAtRun(w: string, t: string, rest: string)
    requires AllWord(w) && 0 < |t| && !IsWordChar(t[0]) && t[RunEnd(t, 0)..] == rest && AllWord(rest)
    ensures ReplaceAllRuns(w + t) == w + "_" + rest
  {
    ReplaceAllWordPrefix(w, t);
  }

  /** A word character at the head is kept and the replacement goes on behind it. */
  lemma ReplaceWordHead(s: string)
    requires |s| > 0 && IsWordChar(s[0])
    ensures ReplaceAllRuns(s) == [s[0]] + ReplaceAllRuns(s[1..])
  {
  }

  /** A prefix of word characters passes through the global replacement untouched. */
  lemma {:induction false} ReplaceAllWordPrefix(w: string, t: string)
    requires AllWord(w)
    ensures ReplaceAllRuns(w + t) == w + ReplaceAllRuns(t)
    decreases |w|
  {
    if |w| > 0 {
      var u := w[1..];
      HeadTail(w, t);
      ReplaceWordHead(w + t);
      ReplaceAllWordPrefix(u, t);
    } else {
      assert w + t == t;
    }
  }

  /** Scanning a run inside `s` from `j` ends where scanning the suffix from `i` does, shifted by `i`. */
  lemma {:induction false} RunEndShift(s: string, i: nat, j: nat)
    requires i <= j <= |s|
    ensures RunEnd(s, j) == i + RunEnd(s[i..], j - i)
    decreases |s| - j
  {
    if j < |s| && !IsWordChar(s[j]) {
      assert s[i..][j - i] == s[j];
      RunEndShift(s, i, j + 1);
    } else if j < |s| {
      assert s[i..][j - i] == s[j];
    }
  }

  // ---------------------------------------------------------------------
  // javaBuildInClass

  /**
   * The package under which the table `javaBuildInClasses` lists a class;
   * every entry is its key behind a package name.
   */
  function BuildInPackage(className: string): (r: Option<string>)
    ensures r.Some? ==> |r.value| >= 1
  {
    if className == "BigDecimal" then Some("java.math")
    else if className == "Boolean" then Some("java.lang")
    else if className == "Byte" then Some("java.lang")
    else if className == "Date" then Some("java.sql")
    else if className == "Double" then Some("java.lang")
    else if className == "Float" then Some("java.lang")
    else if className == "Integer" then Some("java.lang")
    else if className == "Long" then Some("java.lang")
    else if className == "Short" then Some("java.lang")
    else if className == "String" then Some("java.lang")
    else if className == "Time" then Some("java.sql")
    else if className == "Timestamp" then Some("java.sql")
    else if className == "UUID" then Some("java.util")
    else None
  }

  /** The table with every class under its own key, `BigDecimal` as `java.math.BigDecimal`. */
  function BuildInEntry(className: string): Option<string>
  {
    match BuildInPackage(className)
    case Some(pkg) => Some(pkg + "." + className)
    case None => None
  }

  /** The entry of the table as written: `BigDecimal` points at `java.math.Boolean`. */
  function BuildInEntryAsWritten(className: string): (r: Option<string>)
    ensures r.Some? <==> BuildInEntry(className).Some?
    ensures className != "BigDecimal" ==> r == BuildInEntry(className)
  {
    if className == "BigDecimal" then Some("java.math.Boolean") else BuildInEntry(className)
  }

  /** `javaBuildInClass(className)` with the table as written. */
  function JavaBuildInClassAsWritten(className: string): (r: string)
    ensures BuildInEntryAsWritten(className).None? ==> r == className
  {
    match BuildInEntryAsWritten(className)
    case Some(full) => full
    case None => className
  }

  /**
   * `javaBuildInClass(className)` with the corrected table: a known name
   * resolves to a class of that short name, any other name comes back as it was.
   */
  function JavaBuildInClass(className: string): (r: string)
    ensures BuildInEntry(className).None? ==> r == className
    ensures BuildInEntry(className).Some? ==> ShortName(r) == className
  {
    match BuildInEntry(className)
    case Some(full) =>
      BuildInEntryKeyed(className);
      full
    case None => className
  }

  /** As written, `BigDecimal` resolves to a class whose short name is `Boolean`. */
  lemma BigDecimalAsWritten()
    ensures JavaBuildInClassAsWritten("BigDecimal") == "java.math.Boolean"
    ensures ShortName(JavaBuildInClassAsWritten("BigDecimal")) == "Boolean"
  {
    ShortNameInPackage("java.math", "Boolean");
    assert "java.math" + "." + "Boolean" == "java.math.Boolean";
  }

  /** Every entry of the corrected table names a class whose short name is its key. */
  lemma BuildInEntryKeyed(className: string)
    requires BuildInEntry(className).Some?
    ensures ShortName(BuildInEntry(className).value) == className
  {
    KeyHasNoDot(className);
    ShortNameInPackage(BuildInPackage(className).value, className);
  }

  lemma KeyHasNoDot(className: string)
    requires BuildInPackage(className).Some?
    ensures '.' !in className
  {
  }

  /** A class in a package: the short name is the text after the '.' that ends the package name. */
  lemma ShortNameInPackage(pkg: string, cls: string)
    requires |pkg| >= 1 && '.' !in cls
    ensures ShortName(pkg + "." + cls) == cls
  {
    var full := pkg + "." + cls;
    assert full[|pkg|] == '.';
    forall k | |pkg| < k < |full| ensures full[k] != '.' {
      assert full[k] == cls[k - |pkg| - 1];
    }
    ShortNameAfter(full, |pkg|);
    assert full[|pkg| + 1..] == cls;
  }

  /** A name whose last '.' is at `d > 0` has the text after it as its short name. */
  lemma ShortNameAfter(full: string, d: nat)
    requires 0 < d < |full| && full[d] == '.'
    requires forall k :: d < k < |full| ==> full[k] != '.'
    ensures ShortName(full) == full[d + 1..]
  {
    LastDot(full, d);
  }

  lemma LastDot(full: string, d: nat)
    requires 0 < d < |full| && full[d] == '.'
    requires forall k :: d < k < |full| ==> full[k] != '.'
    ensures Text.LastIndexOf(full, '.') == d
  {
    var r := Text.LastIndexOf(full, '.');
    assert r >= d;
  }
}
