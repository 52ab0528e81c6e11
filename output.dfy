/** The output side of the plugin: newline normalisation, decoding of
    process output, the text that `finish` reports, and the output view
    with its two text commands (`exec_in_window_append` and
    `exec_in_window_clear_view`). */
module Output {
  import opened Wrappers

  newtype byte = x: int | 0 <= x < 256

  /** The codec registry, abstracted: `encode(text, encoding)` and
      `decode(bytes, encoding)`, each `None` where the codec raises. */
  datatype Codecs = Codecs(encode: (string, string) -> Option<seq<byte>>,
                           decode: (seq<byte>, string) -> Option<string>)

  /** What `append_data` receives: text from the plugin itself or raw bytes
      from the child process. */
  datatype Payload = Text(s: string) | Raw(bytes: seq<byte>)

  // ---------------------------------------------------------------------
  // Newline normalisation: `replace('\r\n', '\n').replace('\r', '\n')`

  /** `str.replace('\r\n', '\n')`: left to right, non-overlapping. */
  function ReplaceCrLf(s: string): string
  {
    if |s| >= 2 && s[0] == '\r' && s[1] == '\n' then "\n" + ReplaceCrLf(s[2..])
    else if s == [] then []
    else [s[0]] + ReplaceCrLf(s[1..])
  }

  /** `str.replace('\r', '\n')`. */
  function ReplaceCr(s: string): string
  {
    if s == [] then []
    else [if s[0] == '\r' then '\n' else s[0]] + ReplaceCr(s[1..])
  }

  function Normalize(s: string): string
  {
    ReplaceCr(ReplaceCrLf(s))
  }

  /** Reference definition of the normalisation in one pass: each "\r\n" and
      each lone "\r" becomes "\n", and every other character is kept. */
  function NewlinesToLf(s: string): (r: string)
  {
    if s == [] then []
    else if |s| >= 2 && s[0] == '\r' && s[1] == '\n' then "\n" + NewlinesToLf(s[2..])
    else if s[0] == '\r' then "\n" + NewlinesToLf(s[1..])
    else [s[0]] + NewlinesToLf(s[1..])
  }

  /** The two passes of the source agree with the one-pass definition. */
  lemma {:induction false} NormalizeIsOnePass(s: string)
    ensures Normalize(s) == NewlinesToLf(s)
  {
    if |s| >= 2 && s[0] == '\r' && s[1] == '\n' {
      NormalizeIsOnePass(s[2..]);
    } else if s != [] {
      NormalizeIsOnePass(s[1..]);
    }
  }

  lemma {:induction false} ReplaceCrSpec(s: string)
    ensures |ReplaceCr(s)| == |s| && '\r' !in ReplaceCr(s)
    ensures '\r' !in s ==> ReplaceCr(s) == s
  {
    if s != [] {
      ReplaceCrSpec(s[1..]);
    }
  }

  lemma {:induction false} ReplaceCrLfKeepsPlain(s: string)
    requires '\r' !in s
    ensures ReplaceCrLf(s) == s
  {
    if s != [] {
      assert s == [s[0]] + s[1..];
      ReplaceCrLfKeepsPlain(s[1..]);
    }
  }

  /** Normalised text holds no carriage return, and normalisation changes a
      text exactly when it holds one. */
  lemma NormalizeSpec(s: string)
    ensures '\r' !in Normalize(s)
    ensures Normalize(s) == s <==> '\r' !in s
    ensures Normalize(Normalize(s)) == Normalize(s)
  {
    ReplaceCrSpec(ReplaceCrLf(s));
    if '\r' !in s {
      ReplaceCrLfKeepsPlain(s);
      ReplaceCrSpec(s);
    }
    ReplaceCrLfKeepsPlain(Normalize(s));
    ReplaceCrSpec(Normalize(s));
  }

  lemma NormalizeExample()
    ensures Normalize("a\r\nb\rc") == "a\nb\nc"
  {
    NormalizeIsOnePass("a\r\nb\rc");
    assert NewlinesToLf("c") == "c";
    assert NewlinesToLf("\rc") == "\nc";
    assert NewlinesToLf("b\rc") == "b\nc";
    assert NewlinesToLf("\r\nb\rc") == "\nb\nc";
  }

  // ---------------------------------------------------------------------
  // Decoding

  function DecodeErrorNotice(encoding: string): string
  {
    "[Decode error - output not " + encoding + "]\n"
  }

  /** The decode step of `append_data`: text is first encoded and then
      decoded again, bytes are decoded; a failure of either gives the notice. */
  function Decoded(codecs: Codecs, encoding: string, data: Payload): Option<string>
  {
    match data
    case Raw(b) => codecs.decode(b, encoding)
    case Text(s) =>
      match codecs.encode(s, encoding)
      case None => None
      case Some(b) => codecs.decode(b, encoding)
  }

  /** The text `append_data` inserts for one payload. */
  function Rendered(codecs: Codecs, encoding: string, data: Payload): string
  {
    var text := match Decoded(codecs, encoding, data)
                case Some(t) => t
                case None => DecodeErrorNotice(encoding);
    Normalize(text)
  }

  /** The codec turns s into bytes and back into s. */
  predicate RoundTrips(codecs: Codecs, encoding: string, s: string)
  {
    codecs.encode(s, encoding).Some? && codecs.decode(codecs.encode(s, encoding).value, encoding) == Some(s)
  }

  /** A message of the plugin's own that the codec round-trips and that holds
      no carriage return is inserted exactly as written. */
  lemma RenderedMessage(codecs: Codecs, encoding: string, s: string)
    requires RoundTrips(codecs, encoding, s) && '\r' !in s
    ensures Rendered(codecs, encoding, Text(s)) == s
  {
    NormalizeSpec(s);
  }

  /** When decoding fails the inserted text is the notice naming the encoding,
      with no carriage return in it, whatever the payload was. */
  lemma RenderedDecodeFailure(codecs: Codecs, encoding: string, data: Payload)
    requires Decoded(codecs, encoding, data).None?
    ensures Rendered(codecs, encoding, data) == Normalize(DecodeErrorNotice(encoding))
    ensures '\r' !in encoding ==> Rendered(codecs, encoding, data) == DecodeErrorNotice(encoding)
    ensures '\r' !in Rendered(codecs, encoding, data)
  {
    NormalizeSpec(DecodeErrorNotice(encoding));
  }

  // ---------------------------------------------------------------------
  // Report texts of `finish`

  function DigitChar(d: nat): (c: char)
    requires d < 10
    ensures '0' <= c <= '9' && c as int - '0' as int == d
  {
    ('0' as int + d) as char
  }

  /** Decimal digits of n, as `%d` prints it. */
  function NatToString(n: nat): (r: string)
    ensures |r| >= 1 && forall i :: 0 <= i < |r| ==> '0' <= r[i] <= '9'
    ensures r[0] == '0' ==> n == 0
  {
    if n < 10 then [DigitChar(n)] else NatToString(n / 10) + [DigitChar(n % 10)]
  }

  function IntToString(i: int): (r: string)
    ensures |r| >= 1 && (r[0] == '-' <==> i < 0)
  {
    if i < 0 then "-" + NatToString(-i) else NatToString(i)
  }

  /** The value of `%d`: its digits read back give the number. */
  function DigitsValue(s: string): int
    requires forall i :: 0 <= i < |s| ==> '0' <= s[i] <= '9'
  {
    if s == [] then 0 else 10 * DigitsValue(s[..|s| - 1]) + (s[|s| - 1] as int - '0' as int)
  }

  lemma {:induction false} NatToStringValue(n: nat)
    ensures DigitsValue(NatToString(n)) == n
  {
    if n >= 10 {
      NatToStringValue(n / 10);
      var s := NatToString(n);
      assert s[..|s| - 1] == NatToString(n / 10);
    }
  }

  /** The text `%d` prints for any int: a minus sign for a negative number,
      then the digits of its magnitude, which read back as that magnitude. */
  lemma IntToStringValue(i: int)
    ensures var r := IntToString(i);
            && (i < 0 ==> r[0] == '-' && (forall k :: 1 <= k < |r| ==> '0' <= r[k] <= '9')
                           && |r| >= 2 && DigitsValue(r[1..]) == -i)
            && (i >= 0 ==> DigitsValue(r) == i)
  {
    if i < 0 {
      NatToStringValue(-i);
      assert IntToString(i)[1..] == NatToString(-i);
    } else {
      NatToStringValue(i);
    }
  }

  function FinishedBanner(elapsed: string): string
  {
    "\n[Finished in " + elapsed + "s]\n"
  }

  function PostCommandBanner(command: string): string
  {
    "\n[Post Command:" + command + "]\n"
  }

  function ExitCodeBanner(elapsed: string, code: int): string
  {
    "\n[Finished in " + elapsed + "s with exit code " + IntToString(code) + "]\n"
  }


  /** Scenario: exit code 2 after 3.2 seconds. */
  lemma ExitCodeScenario()
    ensures ExitCodeBanner("3.2", 2) == "\n[Finished in 3.2s with exit code 2]\n"
  {
    assert IntToString(2) == "2";
  }

  predicate Succeeded(exitCode: Option<int>)
  {
    exitCode == None || exitCode == Some(0)
  }

  /** The messages `finish` hands to `append_data` when not quiet, in order. */
  function FinishMessages(exitCode: Option<int>, elapsed: string, postCommand: Option<string>): (r: seq<string>)
    ensures Succeeded(exitCode) ==> |r| == (if Truthy(postCommand) then 2 else 1)
                                    && r[0] == FinishedBanner(elapsed)
    ensures Succeeded(exitCode) && Truthy(postCommand) ==> r[1] == PostCommandBanner(postCommand.value)
    ensures !Succeeded(exitCode) ==> r == [ExitCodeBanner(elapsed, exitCode.value)]
  {
    if Succeeded(exitCode) then
      [FinishedBanner(elapsed)] + (if Truthy(postCommand) then [PostCommandBanner(postCommand.value)] else [])
    else
      [ExitCodeBanner(elapsed, exitCode.value)]
  }

  /** The status line `finish` posts for the current process. */
  function StatusLine(errorCount: nat): string
  {
    if errorCount == 0 then "Build finished"
    else "Build finished with " + NatToString(errorCount) + " errors"
  }

  /** The plain status line is posted exactly when no error was found, and
      otherwise the line carries the count. */
  lemma StatusLineSpec(errorCount: nat)
    ensures StatusLine(errorCount) == "Build finished" <==> errorCount == 0
    ensures errorCount > 0 ==>
              var s := StatusLine(errorCount);
              var digits := s[20..|s| - 7];
              s == "Build finished with " + digits + " errors"
              && (forall i :: 0 <= i < |digits| ==> '0' <= digits[i] <= '9')
              && DigitsValue(digits) == errorCount
  {
    if errorCount > 0 {
      var s := StatusLine(errorCount);
      assert |s| > |"Build finished"|;
      NatToStringValue(errorCount);
      assert s[20..|s| - 7] == NatToString(errorCount);
    }
  }

  // ---------------------------------------------------------------------
  // The output view and its text commands

  /** The output view's text buffer. */
  class OutputView {
    var text: string

    constructor ()
      ensures text == ""
    {
      text := "";
    }

    /** `exec_in_window_append`: inserts the data at the end of the view, and
        nothing for empty data. */
    method Append(data: string)
      modifies this
      ensures text == old(text) + data
    {
      if data != "" {
        text := text + data;
      }
    }

    /** `exec_in_window_clear_view`: erases the whole view. */
    method Clear()
      modifies this
      ensures text == ""
    {
      text := "";
    }
  }
}
