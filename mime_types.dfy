/**
 * The encoder preference resolver (getSupportedMimeType in src/App.jsx):
 * an output format selects an ordered list of candidate MIME types, and the
 * first one the runtime supports is used. MediaRecorder.isTypeSupported is
 * the capability oracle `isTypeSupported`, passed in.
 */
module MimeTypes {

  /** What is returned when no candidate is supported. */
  const Fallback: string := "video/webm"

  /** The output formats that have a candidate list of their own. */
  const KnownFormats: set<string> := {"mp4", "webm", "mkv", "avi"}

  /** The candidate list for a format; any other format uses the mp4 list. */
  function Preferences(format: string): (r: seq<string>)
    ensures |r| >= 2
  {
    match format
    case "webm" => ["video/webm;codecs=vp9", "video/webm;codecs=vp8", "video/webm"]
    case "mkv" => ["video/x-matroska", "video/webm;codecs=vp9", "video/webm"]
    case "avi" => ["video/x-msvideo", "video/webm"]
    case _ => ["video/mp4;codecs=h264", "video/mp4", "video/webm;codecs=h264"]
  }

  /** The first supported candidate, or the fallback when there is none. */
  function FirstSupported(candidates: seq<string>, isTypeSupported: string -> bool): (r: string)
    ensures r == Fallback || (r in candidates && isTypeSupported(r))
  {
    if candidates == [] then Fallback
    else if isTypeSupported(candidates[0]) then candidates[0]
    else FirstSupported(candidates[1..], isTypeSupported)
  }

  /** The loop of getSupportedMimeType, with its early return. */
  method GetSupportedMimeType(format: string, isTypeSupported: string -> bool) returns (mimeType: string)
    ensures mimeType == FirstSupported(Preferences(format), isTypeSupported)
  {
    var preferences := Preferences(format);
    for i := 0 to |preferences|
      invariant FirstSupported(preferences[i..], isTypeSupported) == FirstSupported(preferences, isTypeSupported)
    {
      assert preferences[i..][1..] == preferences[i + 1..];
      if isTypeSupported(preferences[i]) {
        return preferences[i];
      }
    }
    return Fallback;
  }

  /** A supported candidate with no supported candidate before it is the answer. */
  lemma {:induction false} FirstSupportedIsFirst(candidates: seq<string>, isTypeSupported: string -> bool, i: nat)
    requires i < |candidates| && isTypeSupported(candidates[i])
    requires forall j :: 0 <= j < i ==> !isTypeSupported(candidates[j])
    ensures FirstSupported(candidates, isTypeSupported) == candidates[i]
  {
    if i > 0 {
      assert !isTypeSupported(candidates[0]);
      FirstSupportedIsFirst(candidates[1..], isTypeSupported, i - 1);
    }
  }

  /** The converse: an answer other than the fallback is the first supported candidate. */
  lemma {:induction false} FirstSupportedFound(candidates: seq<string>, isTypeSupported: string -> bool)
    requires exists i :: 0 <= i < |candidates| && isTypeSupported(candidates[i])
    ensures exists i :: 0 <= i < |candidates| && isTypeSupported(candidates[i])
              && (forall j :: 0 <= j < i ==> !isTypeSupported(candidates[j]))
              && FirstSupported(candidates, isTypeSupported) == candidates[i]
  {
    if isTypeSupported(candidates[0]) {
      assert FirstSupported(candidates, isTypeSupported) == candidates[0];
    } else {
      var k :| 0 <= k < |candidates| && isTypeSupported(candidates[k]);
      assert candidates[1..][k - 1] == candidates[k];
      FirstSupportedFound(candidates[1..], isTypeSupported);
      var i :| 0 <= i < |candidates[1..]| && isTypeSupported(candidates[1..][i])
                && (forall j :: 0 <= j < i ==> !isTypeSupported(candidates[1..][j]))
                && FirstSupported(candidates[1..], isTypeSupported) == candidates[1..][i];
      assert forall j :: 1 <= j < i + 1 ==> candidates[j] == candidates[1..][j - 1];
    }
  }

  /**
   * When no candidate is supported the fallback is returned, without asking
   * the oracle whether the fallback itself is supported.
   */
  lemma {:induction false} NoneSupportedFallsBack(candidates: seq<string>, isTypeSupported: string -> bool)
    requires forall j :: 0 <= j < |candidates| ==> !isTypeSupported(candidates[j])
    ensures FirstSupported(candidates, isTypeSupported) == Fallback
  {
    if candidates != [] {
      NoneSupportedFallsBack(candidates[1..], isTypeSupported);
    }
  }

  /**
   * The fallback is returned unchecked: when the runtime supports neither a
   * candidate nor "video/webm", the answer is a type it cannot record.
   */
  lemma FallbackMayBeUnsupported(format: string, isTypeSupported: string -> bool)
    requires !isTypeSupported(Fallback)
    requires forall j :: 0 <= j < |Preferences(format)| ==> !isTypeSupported(Preferences(format)[j])
    ensures FirstSupported(Preferences(format), isTypeSupported) == Fallback
    ensures !isTypeSupported(FirstSupported(Preferences(format), isTypeSupported))
  {
    NoneSupportedFallsBack(Preferences(format), isTypeSupported);
  }

  /** A candidate list ending in the fallback behaves like the list without it. */
  lemma {:induction false} TrailingFallbackIsRedundant(candidates: seq<string>, isTypeSupported: string -> bool)
    requires |candidates| > 0 && candidates[|candidates| - 1] == Fallback
    ensures FirstSupported(candidates, isTypeSupported)
         == FirstSupported(candidates[..|candidates| - 1], isTypeSupported)
  {
    if |candidates| > 1 {
      var rest := candidates[1..];
      assert rest[..|rest| - 1] == candidates[..|candidates| - 1][1..];
      TrailingFallbackIsRedundant(rest, isTypeSupported);
    }
  }

  /** An unrecognised format resolves exactly as mp4 does. */
  lemma UnknownFormatUsesMp4(format: string, isTypeSupported: string -> bool)
    requires format !in KnownFormats
    ensures FirstSupported(Preferences(format), isTypeSupported) == FirstSupported(Preferences("mp4"), isTypeSupported)
  {
  }

  /**
   * For webm, mkv and avi, whether the runtime supports plain "video/webm"
   * never changes the answer: the last candidate is the fallback itself.
   */
  lemma WebmSupportIrrelevant(format: string, s1: string -> bool, s2: string -> bool)
    requires format in {"webm", "mkv", "avi"}
    requires forall t :: t != Fallback ==> s1(t) == s2(t)
    ensures FirstSupported(Preferences(format), s1) == FirstSupported(Preferences(format), s2)
  {
    var prefs := Preferences(format);
    TrailingFallbackIsRedundant(prefs, s1);
    TrailingFallbackIsRedundant(prefs, s2);
    FirstSupportedAgree(prefs[..|prefs| - 1], s1, s2);
  }

  /** Two oracles that agree on every candidate give the same answer. */
  lemma {:induction false} FirstSupportedAgree(candidates: seq<string>, s1: string -> bool, s2: string -> bool)
    requires forall j :: 0 <= j < |candidates| ==> s1(candidates[j]) == s2(candidates[j])
    ensures FirstSupported(candidates, s1) == FirstSupported(candidates, s2)
  {
    if candidates != [] {
      FirstSupportedAgree(candidates[1..], s1, s2);
    }
  }

  /**
   * An avi recording is webm unless the runtime supports "video/x-msvideo":
   * the container then need not match the ".avi" file extension.
   */
  lemma AviFallsBackToWebm(isTypeSupported: string -> bool)
    requires !isTypeSupported("video/x-msvideo")
    ensures FirstSupported(Preferences("avi"), isTypeSupported) == "video/webm"
  {
  }
}
