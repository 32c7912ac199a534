/**
 * Distribution detection from the text of `/etc/os-release`, shared by both programs
 * (`detect_os` in src/main.rs and in rdct.rs is the same code). Reading the file is not
 * modelled: the caller passes its contents, or `None` when reading it failed.
 */
module OsRelease {
  import opened Prelude

  /** `OsDistribution`. */
  datatype OsDistribution = Rhel | Centos | Unknown

  /** The `{:?}` (Debug) text of an `OsDistribution`, as written into script headers. */
  function DebugName(os: OsDistribution): string
  {
    match os
    case Rhel => "Rhel"
    case Centos => "Centos"
    case Unknown => "Unknown"
  }

  predicate StartsWith(s: string, prefix: string)
  {
    |prefix| <= |s| && s[..|prefix|] == prefix
  }

  // ---------------------------------------------------------------------------
  // Rust's `str::lines`
  // ---------------------------------------------------------------------------

  /** Position of the first '\n' in `s`, or `|s|` when `s` has none. */
  function NewlineIndex(s: string): (k: nat)
    ensures k <= |s|
    ensures k < |s| ==> s[k] == '\n'
    ensures forall j :: 0 <= j < k ==> s[j] != '\n'
  {
    if s == [] then 0
    else if s[0] == '\n' then 0
    else 1 + NewlineIndex(s[1..])
  }

  /** A line ended by "\r\n" loses the '\r' as well as the '\n'. */
  function StripCr(line: string): string
  {
    if |line| > 0 && line[|line| - 1] == '\r' then line[..|line| - 1] else line
  }

  /**
   * `s.lines()`: the text is cut after every '\n'; each piece loses its '\n' and then a
   * '\r' just before it; the last piece needs no terminator, and an empty remainder after
   * the final '\n' is not a line. A bare '\r' that ends the text stays.
   */
  function Lines(s: string): seq<string>
    decreases |s|
  {
    if s == [] then []
    else
      var k := NewlineIndex(s);
      if k == |s| then [s] else [StripCr(s[..k])] + Lines(s[k + 1..])
  }

  /** Cutting off the first line. */
  lemma LinesCons(a: string, b: string)
    requires '\n' !in a
    ensures Lines(a + "\n" + b) == [StripCr(a)] + Lines(b)
  {
    var s := a + "\n" + b;
    assert s[|a|] == '\n';
    assert s[..|a|] == a;
    assert s[|a| + 1..] == b;
  }

  /** Text without a '\n' is one line (or none when empty). */
  lemma LinesOfOneLine(a: string)
    requires '\n' !in a
    ensures Lines(a) == if a == [] then [] else [a]
  {
  }

  /** `lines()` yields nothing exactly for the empty text. */
  lemma LinesEmptyIff(s: string)
    ensures Lines(s) == [] <==> s == []
  {
  }

  /** Text that ends in '\n' contributes its own lines, and what follows starts a fresh line. */
  lemma {:induction false} LinesAfterTerminated(h: string, b: string)
    requires |h| > 0 && h[|h| - 1] == '\n'
    ensures Lines(h + b) == Lines(h) + Lines(b)
    decreases |h|, 1
  {
    var k := NewlineIndex(h);
    assert k < |h|;
    var a, t := h[..k], h[k + 1..];
    assert '\n' !in a by {
      forall j | 0 <= j < |a| ensures a[j] != '\n' {
        assert a[j] == h[j];
      }
    }
    assert h == a + "\n" + t;
    if t != [] {
      assert t[|t| - 1] == h[|h| - 1];
    }
    LinesAfterFirstLine(h, a, t, b);
  }

  lemma {:induction false} LinesAfterFirstLine(h: string, a: string, t: string, b: string)
    requires h == a + "\n" + t
    requires '\n' !in a && (t == [] || t[|t| - 1] == '\n')
    ensures Lines(h + b) == Lines(h) + Lines(b)
    decreases |h|, 0
  {
    var tb := t + b;
    assert h + b == a + "\n" + tb;
    LinesCons(a, tb);
    LinesCons(a, t);
    var first := [StripCr(a)];
    if t != [] {
      LinesAfterTerminated(t, b);
      AppendAssoc(first, Lines(t), Lines(b));
    } else {
      assert tb == b;
    }
  }

  lemma AppendAssoc<T>(x: seq<T>, y: seq<T>, z: seq<T>)
    ensures x + (y + z) == (x + y) + z
  {
  }

  /** No line handed out by `lines()` contains a '\n'. */
  lemma {:induction false} LinesHaveNoNewline(s: string)
    ensures forall i :: 0 <= i < |Lines(s)| ==> '\n' !in Lines(s)[i]
    decreases |s|
  {
    if s != [] {
      var k := NewlineIndex(s);
      if k < |s| {
        LinesHaveNoNewline(s[k + 1..]);
        var first := s[..k];
        assert '\n' !in first by {
          forall j | 0 <= j < |first| ensures first[j] != '\n' {
            assert first[j] == s[j];
          }
        }
        assert '\n' !in StripCr(first) by {
          forall j | 0 <= j < |StripCr(first)| ensures StripCr(first)[j] != '\n' {
            assert StripCr(first)[j] == first[j];
          }
        }
      } else {
        assert forall j :: 0 <= j < |s| ==> s[j] != '\n';
      }
    }
  }

  // ---------------------------------------------------------------------------
  // Rust's `trim_start_matches(&str)` and `trim_matches(char)`
  // ---------------------------------------------------------------------------

  function Repeat(p: string, n: nat): string
  {
    if n == 0 then [] else p + Repeat(p, n - 1)
  }

  /** `s.trim_start_matches(p)`: removes copies of `p` from the front for as long as there is one. */
  function TrimStartMatches(s: string, p: string): (r: string)
    requires p != []
    ensures |r| <= |s| && r == s[|s| - |r|..]
    ensures !StartsWith(r, p)
    decreases |s|
  {
    if StartsWith(s, p) then TrimStartMatches(s[|p|..], p) else s
  }

  /** How many copies of `p` `trim_start_matches` removes from the front of `s`. */
  function TrimmedCopies(s: string, p: string): nat
    requires p != []
    decreases |s|
  {
    if StartsWith(s, p) then 1 + TrimmedCopies(s[|p|..], p) else 0
  }

  /** What `trim_start_matches` removes is exactly a run of copies of `p`. */
  lemma {:induction false} TrimStartMatchesRemovesCopies(s: string, p: string)
    requires p != []
    ensures s == Repeat(p, TrimmedCopies(s, p)) + TrimStartMatches(s, p)
    decreases |s|
  {
    if StartsWith(s, p) {
      var t := s[|p|..];
      TrimStartMatchesRemovesCopies(t, p);
      assert s == p + t;
      AppendAssoc(p, Repeat(p, TrimmedCopies(t, p)), TrimStartMatches(t, p));
    }
  }

  /** `s.trim_start_matches(c)`: drops every leading `c`. */
  function TrimStartChar(s: string, c: char): (r: string)
    ensures |r| <= |s| && r == s[|s| - |r|..]
    ensures r == [] || r[0] != c
    ensures forall k :: 0 <= k < |s| - |r| ==> s[k] == c
  {
    if s != [] && s[0] == c then TrimStartChar(s[1..], c) else s
  }

  /** `s.trim_end_matches(c)`: drops every trailing `c`. */
  function TrimEndChar(s: string, c: char): (r: string)
    ensures |r| <= |s| && r == s[..|r|]
    ensures r == [] || r[|r| - 1] != c
    ensures forall k :: |r| <= k < |s| ==> s[k] == c
  {
    if s != [] && s[|s| - 1] == c then TrimEndChar(s[..|s| - 1], c) else s
  }

  /** `s.trim_matches(c)`: drops every leading and every trailing `c`. */
  function TrimMatches(s: string, c: char): (r: string)
    ensures r == [] || (r[0] != c && r[|r| - 1] != c)
  {
    TrimEndChar(TrimStartChar(s, c), c)
  }

  // ---------------------------------------------------------------------------
  // detect_os
  // ---------------------------------------------------------------------------

  predicate IsIdLine(line: string)
  {
    StartsWith(line, "ID=")
  }

  /** `line.trim_start_matches("ID=").trim_matches('"')`. */
  function IdValue(line: string): string
  {
    TrimMatches(TrimStartMatches(line, "ID="), '"')
  }

  /** The `match id` of `detect_os`. */
  function Classify(id: string): OsDistribution
  {
    if id == "rhel" then Rhel else if id == "centos" then Centos else Unknown
  }

  /** The distribution named by the first `ID=` line, `Unknown` when there is none. */
  function FirstIdLine(lines: seq<string>): OsDistribution
  {
    if lines == [] then Unknown
    else if IsIdLine(lines[0]) then Classify(IdValue(lines[0]))
    else FirstIdLine(lines[1..])
  }

  /** What `detect_os` returns for the given file contents (`None`: the file could not be read). */
  function ParseOsRelease(contents: Option<string>): OsDistribution
  {
    match contents
    case None => Unknown
    case Some(text) => FirstIdLine(Lines(text))
  }

  /** `detect_os`: scans the lines and returns at the first `ID=` line. */
  method DetectOs(contents: Option<string>) returns (os: OsDistribution)
    ensures os == ParseOsRelease(contents)
  {
    if contents.Some? {
      var lines := Lines(contents.value);
      for i := 0 to |lines|
        invariant FirstIdLine(lines[i..]) == FirstIdLine(lines)
      {
        assert lines[i..][1..] == lines[i + 1..];
        if IsIdLine(lines[i]) {
          return Classify(IdValue(lines[i]));
        }
      }
      assert lines[|lines|..] == [];
    }
    return Unknown;
  }

  /** With no `ID=` line the result is `Unknown`. */
  lemma {:induction false} NoIdLineIsUnknown(lines: seq<string>)
    requires forall i :: 0 <= i < |lines| ==> !IsIdLine(lines[i])
    ensures FirstIdLine(lines) == Unknown
  {
    if lines != [] {
      assert forall i :: 0 <= i < |lines[1..]| ==> lines[1..][i] == lines[i + 1];
      NoIdLineIsUnknown(lines[1..]);
    }
  }

  /** The first `ID=` line alone decides: later lines, `ID=` or not, are never looked at. */
  lemma {:induction false} FirstIdLineDecides(lines: seq<string>, k: nat)
    requires k < |lines| && IsIdLine(lines[k])
    requires forall i :: 0 <= i < k ==> !IsIdLine(lines[i])
    ensures FirstIdLine(lines) == Classify(IdValue(lines[k]))
    decreases k
  {
    if k > 0 {
      assert !IsIdLine(lines[0]);
      assert lines[1..][k - 1] == lines[k];
      assert forall i :: 0 <= i < k - 1 ==> lines[1..][i] == lines[i + 1];
      FirstIdLineDecides(lines[1..], k - 1);
    }
  }

  /** Only the exact values `rhel` and `centos` (after trimming) name a known distribution. */
  lemma ClassifyKnownValues(id: string)
    ensures Classify(id) == Rhel <==> id == "rhel"
    ensures Classify(id) == Centos <==> id == "centos"
  {
  }

  /** Every copy of `p` in front of a value that does not itself start with `p` is removed. */
  lemma {:induction false} TrimStartMatchesRepeat(p: string, n: nat, v: string)
    requires p != [] && !StartsWith(v, p)
    ensures TrimStartMatches(Repeat(p, n) + v, p) == v
  {
    if n > 0 {
      var s, x := Repeat(p, n) + v, Repeat(p, n - 1) + v;
      AppendAssoc(p, Repeat(p, n - 1), v);
      assert s == p + x;
      assert s[..|p|] == p;
      assert s[|p|..] == x;
      TrimStartMatchesRepeat(p, n - 1, v);
    } else {
      assert Repeat(p, n) + v == v;
    }
  }

  /** A value wrapped in one pair of quotes loses exactly that pair. */
  lemma TrimMatchesQuoted(v: string)
    requires v == [] || (v[0] != '"' && v[|v| - 1] != '"')
    ensures TrimMatches("\"" + v + "\"", '"') == v
  {
    var q := "\"" + v + "\"";
    if v == [] {
      assert q[1..] == "\"";
      assert TrimStartChar("\"", '"') == [] by {
        assert "\""[1..] == [];
      }
    } else {
      assert q[1..] == v + "\"";
      assert TrimStartChar(q, '"') == v + "\"";
      assert (v + "\"")[..|v|] == v;
      assert TrimEndChar(v + "\"", '"') == v;
    }
  }

  /** `ID=` (repeated any number of times) then a quoted value gives back the value. */
  lemma IdValueOfQuoted(n: nat, v: string)
    requires n >= 1
    requires v == [] || (v[0] != '"' && v[|v| - 1] != '"')
    ensures IdValue(Repeat("ID=", n) + ("\"" + v + "\"")) == v
  {
    assert !StartsWith("\"" + v + "\"", "ID=") by {
      assert ("\"" + v + "\"")[0] == '"';
    }
    TrimStartMatchesRepeat("ID=", n, "\"" + v + "\"");
    TrimMatchesQuoted(v);
  }

  /** `ID=` (repeated any number of times) then a bare value gives back the value. */
  lemma IdValueOfBare(n: nat, v: string)
    requires n >= 1 && !StartsWith(v, "ID=")
    requires v == [] || (v[0] != '"' && v[|v| - 1] != '"')
    ensures IdValue(Repeat("ID=", n) + v) == v
  {
    TrimStartMatchesRepeat("ID=", n, v);
  }
}
