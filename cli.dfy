/** The pure parts of the command-line tool that points the Twilio number
    at a tunnel (main.py): the duration option, the tunnel URL's scheme,
    and the webhook URL and command that `set_voice_url` builds. */
module Cli {

  import opened Wrappers
  import opened Strings

  const DEFAULT_PROD_URL: string := ""
  const VOICE_ENDPOINT: string := "/twilio/stream/"
  const TESTING_PHONE_NUMBER: string := "+18125625570"
  const DEFAULT_DURATION: string := "5m"

  // -----------------------------------------------------------------------
  // parse_duration (main.py:38-48)

  /** Why `parse_duration` raises: `duration_str[-1]` on an empty string
      (IndexError), or `int()` of the text before the last character
      (ValueError). */
  datatype DurationError = NoLastCharacter | NotAnInteger(text: string)

  /** Seconds for a duration such as "1h", "30m" or "300s": the last
      character is the unit, whatever precedes it is the number. */
  function ParseDuration(duration: string): Result<int, DurationError>
  {
    if |duration| == 0 then Err(NoLastCharacter)
    else
      var unit := duration[|duration| - 1];
      var prefix := duration[..|duration| - 1];
      match ParseInt(prefix)
      case None => Err(NotAnInteger(prefix))
      case Some(value) =>
        // `unit.lower()` is 'h' exactly for 'h' and 'H', 'm' exactly for 'm' and 'M'
        Ok(if unit == 'h' || unit == 'H' then value * 3600
           else if unit == 'm' || unit == 'M' then value * 60
           else value)
  }

  /** A number followed by a unit: hours, minutes, or, for any other final
      character (a digit and 's' included), the number unchanged. */
  lemma ParseDurationOfNumber(n: int, unit: char)
    ensures unit in "hH" ==> ParseDuration(IntToString(n) + [unit]) == Ok(n * 3600)
    ensures unit in "mM" ==> ParseDuration(IntToString(n) + [unit]) == Ok(n * 60)
    ensures unit !in "hHmM" ==> ParseDuration(IntToString(n) + [unit]) == Ok(n)
  {
    var s := IntToString(n) + [unit];
    assert s[..|s| - 1] == IntToString(n);
    ParseIntOfIntToString(n);
  }

  /** The default option "5m" is 300 seconds. */
  lemma DefaultDuration()
    ensures ParseDuration(DEFAULT_DURATION) == Ok(300)
  {
    assert IntToString(5) == "5";
    assert IntToString(5) + ['m'] == DEFAULT_DURATION;
    ParseDurationOfNumber(5, 'm');
  }

  /** A number without a unit loses its last digit, which is taken as the
      unit: "300" parses as 30. */
  lemma {:induction false} UnitlessNumber(n: nat)
    requires n >= 10
    ensures ParseDuration(NatToString(n)) == Ok(n / 10)
  {
    var s := NatToString(n);
    assert s[..|s| - 1] == NatToString(n / 10) == IntToString(n / 10);
    ParseIntOfIntToString(n / 10);
  }

  lemma ThreeHundred()
    ensures ParseDuration("300") == Ok(30)
    ensures ParseDuration("300s") == Ok(300)
  {
    assert NatToString(300) == "300";
    UnitlessNumber(300);
    assert IntToString(300) + ['s'] == "300s";
    ParseDurationOfNumber(300, 's');
  }

  /** The failures: nothing to take the unit from, or no number before it,
      as for a lone digit, "xm", or a number behind a separator control
      character that `int()` does not strip. */
  lemma ParseDurationFailures(c: char)
    ensures ParseDuration("") == Err(NoLastCharacter)
    ensures ParseDuration([c]) == Err(NotAnInteger(""))
    ensures ParseDuration("xm") == Err(NotAnInteger("x"))
    ensures ParseDuration("\U{1C}5m") == Err(NotAnInteger("\U{1C}5"))
  {
    assert [c][..0] == "";
    assert "xm"[..1] == "x";
    assert Strip("x") == "x";
    assert "\U{1C}5m"[..2] == "\U{1C}5";
    assert Strip("\U{1C}5") == "\U{1C}5";
  }

  /** Surrounding whitespace that `int()` strips is accepted. */
  lemma ParseDurationStripsSpaces()
    ensures ParseDuration(" 5 m") == Ok(300)
  {
    assert " 5 m"[..3] == " 5 ";
    assert TrimStart(" 5 ") == "5 ";
    assert Strip(" 5 ") == "5";
  }

  // -----------------------------------------------------------------------
  // The scheme rewrite in create_ngrok_tunnel (main.py:92-93)

  /** `s.startswith(prefix)` */
  predicate StartsWith(s: string, prefix: string)
  {
    |prefix| <= |s| && s[..|prefix|] == prefix
  }

  function ToHttps(url: string): string
  {
    if StartsWith(url, "http://") then "https://" + url[7..] else url
  }

  /** "http://" + rest becomes "https://" + rest; any other URL is kept. */
  lemma ToHttpsRewrites(rest: string, url: string)
    ensures ToHttps("http://" + rest) == "https://" + rest
    ensures !StartsWith(url, "http://") ==> ToHttps(url) == url
  {
  }

  /** The result never starts with "http://", so a second rewrite changes nothing. */
  lemma ToHttpsIdempotent(url: string)
    ensures !StartsWith(ToHttps(url), "http://")
    ensures ToHttps(ToHttps(url)) == ToHttps(url)
  {
    var r := ToHttps(url);
    if StartsWith(url, "http://") {
      assert r[4] == 's';
      assert |r| >= 7 ==> r[..7][4] == 's';
    }
  }

  // -----------------------------------------------------------------------
  // set_voice_url (main.py:71-78) and the split in run_command (main.py:52)

  /** The webhook: the base URL followed by the voice endpoint. */
  function VoiceUrl(url: string): string
  {
    url + VOICE_ENDPOINT
  }

  /** The command line `set_voice_url` hands to `run_command`. */
  function SetVoiceUrlCommand(url: string): string
  {
    "twilio phone-numbers:update " + TESTING_PHONE_NUMBER + " --voice-url " + VoiceUrl(url)
  }

  lemma VoiceUrlShape(url: string)
    ensures |VoiceUrl(url)| == |url| + |VOICE_ENDPOINT|
    ensures VoiceUrl(url)[..|url|] == url && VoiceUrl(url)[|url|..] == VOICE_ENDPOINT
    ensures VoiceUrl(DEFAULT_PROD_URL) == "/twilio/stream/"
  {
  }

  function VoiceUrlArguments(url: string): seq<string>
  {
    ["twilio", "phone-numbers:update", TESTING_PHONE_NUMBER, "--voice-url", VoiceUrl(url)]
  }

  lemma CommandJoinsArguments(url: string)
    ensures SetVoiceUrlCommand(url) == JoinSpaces(VoiceUrlArguments(url))
  {
    var args := VoiceUrlArguments(url);
    var v := VoiceUrl(url);
    var tail := "--voice-url" + " " + v;
    assert JoinSpaces(args[1..][1..][1..]) == tail by {
      assert args[1..][1..][1..] == ["--voice-url", v];
      assert ["--voice-url", v][1..] == [v];
    }
    var middle := TESTING_PHONE_NUMBER + " " + tail;
    assert JoinSpaces(args[1..][1..]) == middle;
    var rest := "phone-numbers:update" + " " + middle;
    assert JoinSpaces(args[1..]) == rest;
    assert JoinSpaces(args) == "twilio" + " " + rest;
    CommandPieces();
    Reassociate("twilio", "phone-numbers:update", TESTING_PHONE_NUMBER, "--voice-url", v);
  }

  lemma CommandPieces()
    ensures "twilio phone-numbers:update " == "twilio" + " " + "phone-numbers:update" + " "
    ensures " --voice-url " == " " + "--voice-url" + " "
  {
  }

  lemma Reassociate(a: string, b: string, c: string, d: string, e: string)
    ensures (a + " " + b + " ") + c + (" " + d + " ") + e == a + " " + (b + " " + (c + " " + (d + " " + e)))
  {
  }

  /** For a URL without whitespace, `command.split()` gives the Twilio CLI
      exactly five arguments, the last of them the webhook. */
  lemma SetVoiceUrlArguments(url: string)
    requires forall i :: 0 <= i < |url| ==> !IsSpace(url[i])
    ensures SplitWhitespace(SetVoiceUrlCommand(url)) == VoiceUrlArguments(url)
  {
    CommandJoinsArguments(url);
    var args := VoiceUrlArguments(url);
    var v := VoiceUrl(url);
    assert forall i :: 0 <= i < |v| ==> !IsSpace(v[i]) by {
      forall i | 0 <= i < |v| ensures !IsSpace(v[i]) {
        if i >= |url| {
          assert v[i] == VOICE_ENDPOINT[i - |url|];
        }
      }
    }
    assert IsWord("twilio") && IsWord("phone-numbers:update") && IsWord(TESTING_PHONE_NUMBER) && IsWord("--voice-url");
    SplitJoinSpaces(args);
  }
}
