/**
 * The text `generate_commands` (src/main.rs) builds: a three-line header naming the OS, then
 * either the "No options selected" marker or every selected payload followed by one newline,
 * then, when a reboot is requested, the two reboot lines.
 */
module Commands {
  import opened OsRelease

  // The longer texts below are written as joins of short pieces; the text is the same, and the
  // verifier handles short literals much faster than long ones.

  /** The header: shebang, the OS in its `Debug` spelling, the usage hint and a blank line. */
  function Header(os: OsDistribution): string
  {
    ShebangLine() + OriginLine(os) + UsageLines()
  }

  function ShebangLine(): string
  {
    "#!/bin/bash\n"
  }

  function OriginLine(os: OsDistribution): string
  {
    OriginText(os) + "\n"
  }

  /** The second line without its newline. */
  function OriginText(os: OsDistribution): string
  {
    "# Commands" + " generated for " + DebugName(os) + " by RHEL/" + "CentOS TUI" + " Manager"
  }

  function UsageLines(): string
  {
    "# Save this" + " script and" + " run it with" + " sudo: sudo" + " bash" + " ./script.sh" + "\n\n"
  }

  function NoOptionsSelected(): string
  {
    "\n# No options" + " selected.\n"
  }

  function RebootLines(): string
  {
    RebootNotice() + RebootCommand()
  }

  function RebootNotice(): string
  {
    "\necho '" + "Installation" + " complete." + " Rebooting" + " now...'\n"
  }

  function RebootCommand(): string
  {
    "sudo reboot\n"
  }

  /** Each payload followed by exactly one newline, in order. */
  function Body(payloads: seq<string>): string
  {
    if payloads == [] then "" else payloads[0] + "\n" + Body(payloads[1..])
  }

  /** The script `generate_commands(reboot)` returns, for the selected payload texts in traversal order. */
  function Script(os: OsDistribution, payloads: seq<string>, reboot: bool): string
  {
    Header(os) + Selection(payloads) + Ending(reboot)
  }

  /** The part after the header: the marker when nothing is selected, the payloads otherwise. */
  function Selection(payloads: seq<string>): string
  {
    if payloads == [] then NoOptionsSelected() else Body(payloads)
  }

  /** The reboot lines, when asked for. */
  function Ending(reboot: bool): string
  {
    if reboot then RebootLines() else ""
  }

  /** What calling each collected script function returns, in order (`call` runs one of them). */
  function Outputs<F>(fs: seq<F>, call: F -> string): (ts: seq<string>)
    ensures |ts| == |fs|
    ensures forall k :: 0 <= k < |fs| ==> ts[k] == call(fs[k])
  {
    if fs == [] then [] else [call(fs[0])] + Outputs(fs[1..], call)
  }

  /** One more script function adds its output at the end. */
  lemma OutputsSnoc<F>(fs: seq<F>, f: F, call: F -> string)
    ensures Outputs(fs + [f], call) == Outputs(fs, call) + [call(f)]
  {
    var l, r := Outputs(fs + [f], call), Outputs(fs, call) + [call(f)];
    forall k | 0 <= k < |l| ensures l[k] == r[k] {
      if k < |fs| {
        assert (fs + [f])[k] == fs[k];
      }
    }
  }

  // ---------------------------------------------------------------------------
  // Properties of the generated text
  // ---------------------------------------------------------------------------

  /** One more payload adds that payload and one newline at the end of the body. */
  lemma {:induction false} BodySnoc(payloads: seq<string>, p: string)
    ensures Body(payloads + [p]) == Body(payloads) + p + "\n"
  {
    if payloads == [] {
      assert payloads + [p] == [p];
      assert [p][1..] == [];
    } else {
      assert (payloads + [p])[1..] == payloads[1..] + [p];
      BodySnoc(payloads[1..], p);
    }
  }

  /** The body of a run of payloads split in two is the two bodies joined. */
  lemma {:induction false} BodyAppend(a: seq<string>, b: seq<string>)
    ensures Body(a + b) == Body(a) + Body(b)
  {
    if a == [] {
      assert a + b == b;
    } else {
      assert (a + b)[1..] == a[1..] + b;
      BodyAppend(a[1..], b);
    }
  }

  /** Every script starts with the header. */
  lemma ScriptStartsWithHeader(os: OsDistribution, payloads: seq<string>, reboot: bool)
    ensures |Header(os)| <= |Script(os, payloads, reboot)|
    ensures Script(os, payloads, reboot)[..|Header(os)|] == Header(os)
  {
  }

  /** Asking for a reboot appends the two reboot lines to the script without one, and changes nothing else. */
  lemma ScriptWithReboot(os: OsDistribution, payloads: seq<string>)
    ensures Script(os, payloads, true) == Script(os, payloads, false) + RebootLines()
  {
  }

  /** With nothing selected the script is the header and the marker. */
  lemma ScriptWithoutSelection(os: OsDistribution)
    ensures Script(os, [], false) == Header(os) + "\n# No options selected.\n"
  {
  }

  /** With payloads selected, each follows the header in order, newline-terminated, and no marker appears. */
  lemma ScriptWithSelection(os: OsDistribution, p: string, rest: seq<string>)
    ensures Script(os, [p] + rest, false) == Header(os) + p + "\n" + Body(rest)
  {
    assert ([p] + rest)[1..] == rest;
  }
}
