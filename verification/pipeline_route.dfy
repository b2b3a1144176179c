/** The pipeline endpoint (app/api/pipeline/route.ts): it rejects a missing or
    blank script, fills absent fields with fixed defaults, and hands the payload to
    the storyboard compiler, which is a parameter here (`process`). */
module PipelineRoute {
  import opened Types

  /** A character `String.prototype.trim` removes: the ECMAScript WhiteSpace and
      LineTerminator code points. */
  predicate IsJsWhitespace(c: char) {
    var n := c as int;
    n == 0x09 || n == 0x0A || n == 0x0B || n == 0x0C || n == 0x0D || n == 0x20 ||
    n == 0xA0 || n == 0x1680 || (0x2000 <= n <= 0x200A) || n == 0x2028 || n == 0x2029 ||
    n == 0x202F || n == 0x205F || n == 0x3000 || n == 0xFEFF
  }

  predicate AllWhitespace(s: string) {
    forall i :: 0 <= i < |s| ==> IsJsWhitespace(s[i])
  }

  /** How many whitespace characters `s` starts with. */
  function LeadingWhitespace(s: string): (n: nat)
    ensures n <= |s|
    ensures forall i :: 0 <= i < n ==> IsJsWhitespace(s[i])
    ensures n < |s| ==> !IsJsWhitespace(s[n])
    decreases |s|
  {
    if |s| > 0 && IsJsWhitespace(s[0]) then
      var n := 1 + LeadingWhitespace(s[1..]);
      assert forall i :: 1 <= i < n ==> s[i] == s[1..][i - 1];
      n
    else 0
  }

  /** Where the trailing whitespace of `s` begins. */
  function ContentEnd(s: string): (n: nat)
    ensures n <= |s|
    ensures forall i :: n <= i < |s| ==> IsJsWhitespace(s[i])
    ensures n > 0 ==> !IsJsWhitespace(s[n - 1])
    decreases |s|
  {
    if |s| > 0 && IsJsWhitespace(s[|s| - 1]) then
      var n := ContentEnd(s[..|s| - 1]);
      assert forall i :: n <= i < |s| - 1 ==> s[i] == s[..|s| - 1][i];
      n
    else |s|
  }

  /** `s.trim()`: `s` without its leading and trailing whitespace. The result is
      a contiguous piece of `s` that neither starts nor ends with whitespace, and
      everything cut off on either side is whitespace. */
  function Trim(s: string): (r: string)
    ensures LeadingWhitespace(s) + |r| <= |s|
    ensures r == s[LeadingWhitespace(s)..LeadingWhitespace(s) + |r|]
    ensures |r| > 0 ==> !IsJsWhitespace(r[0]) && !IsJsWhitespace(r[|r| - 1])
    ensures forall i :: LeadingWhitespace(s) + |r| <= i < |s| ==> IsJsWhitespace(s[i])
  {
    var t := s[LeadingWhitespace(s)..];
    assert forall i :: ContentEnd(t) <= i < |t| ==> t[i] == s[LeadingWhitespace(s) + i];
    t[..ContentEnd(t)]
  }

  /** `s.trim().length === 0` holds exactly when every character of `s` is whitespace. */
  lemma TrimEmptyIffAllWhitespace(s: string)
    ensures |Trim(s)| == 0 <==> AllWhitespace(s)
  {
    var k := LeadingWhitespace(s);
    var t := s[k..];
    if |Trim(s)| == 0 {
      assert ContentEnd(t) == 0;
      assert k == |s|;
    }
  }

  /** The request body's fields; `None` is a field that is absent or `null`. */
  datatype RequestFields = RequestFields(
    script: Option<string>,
    targetPlatforms: Option<seq<string>>,
    preferredMood: Option<string>,
    voicePersona: Option<string>,
    aspectRatio: Option<string>)

  /** What `request.json()` yields: a parse failure, the JSON value `null` (whose
      `.script` throws), or a value whose fields are read (a non-object JSON value
      reads as all fields absent). */
  datatype Body = Unparseable | JsonNull | Fields(fields: RequestFields)

  /** The payload the compiler receives, every field filled in. */
  datatype PipelineInput = PipelineInput(
    script: string,
    targetPlatforms: seq<string>,
    preferredMood: string,
    voicePersona: string,
    aspectRatio: string)

  /** What the compiler does with a payload: returns a storyboard or throws. */
  datatype ProcessResult = Produced(storyboard: Storyboard) | Threw

  /** The HTTP reply: a storyboard (status 200) or an error message with a status. */
  datatype Response = Reply(storyboard: Storyboard) | ErrorReply(status: int, message: string)

  const DefaultPlatforms: seq<string> := ["youtube", "instagram", "tiktok"]
  const DefaultMood: string := "cinematic"
  const DefaultPersona: string := "warm_narrator"
  const DefaultAspectRatio: string := "16:9"
  const ScriptRequired: Response := ErrorReply(400, "Script is required.")
  const PipelineFailed: Response := ErrorReply(500, "Failed to run pipeline.")

  /** `!body.script || body.script.trim().length === 0`: the script is absent,
      or every character of it (none, for the empty string) is whitespace. */
  function ScriptMissing(script: Option<string>): (missing: bool)
    ensures missing <==> script.None? || AllWhitespace(script.value)
  {
    match script
    case None => true
    case Some(text) =>
      TrimEmptyIffAllWhitespace(text);
      |text| == 0 || |Trim(text)| == 0
  }

  /** The payload built from accepted fields: the script exactly as sent (not
      trimmed), each other field as sent when present (an empty platform list
      included) and its default when absent. */
  function Payload(f: RequestFields): (p: PipelineInput)
    requires f.script.Some?
    ensures p.script == f.script.value
    ensures f.targetPlatforms.None? ==> p.targetPlatforms == ["youtube", "instagram", "tiktok"]
    ensures f.targetPlatforms.Some? ==> p.targetPlatforms == f.targetPlatforms.value
    ensures f.preferredMood.None? ==> p.preferredMood == "cinematic"
    ensures f.preferredMood.Some? ==> p.preferredMood == f.preferredMood.value
    ensures f.voicePersona.None? ==> p.voicePersona == "warm_narrator"
    ensures f.voicePersona.Some? ==> p.voicePersona == f.voicePersona.value
    ensures f.aspectRatio.None? ==> p.aspectRatio == "16:9"
    ensures f.aspectRatio.Some? ==> p.aspectRatio == f.aspectRatio.value
  {
    PipelineInput(
      f.script.value,
      GetOr(f.targetPlatforms, DefaultPlatforms),
      GetOr(f.preferredMood, DefaultMood),
      GetOr(f.voicePersona, DefaultPersona),
      GetOr(f.aspectRatio, DefaultAspectRatio))
  }

  /** `POST /api/pipeline`. A missing, empty or whitespace-only script gets 400
      "Script is required."; an unreadable body, a `null` body or a throwing
      compiler gets 500 "Failed to run pipeline."; otherwise the compiler's
      storyboard is the reply. */
  function Post(body: Body, process: PipelineInput -> ProcessResult): (r: Response)
    ensures (body.Unparseable? || body.JsonNull?) ==> r == ErrorReply(500, "Failed to run pipeline.")
    ensures body.Fields? && (body.fields.script.None? || AllWhitespace(body.fields.script.value)) ==>
      r == ErrorReply(400, "Script is required.")
    ensures body.Fields? && body.fields.script.Some? && !AllWhitespace(body.fields.script.value) ==>
      match process(Payload(body.fields))
      case Produced(sb) => r == Reply(sb)
      case Threw => r == ErrorReply(500, "Failed to run pipeline.")
  {
    match body
    case Unparseable => PipelineFailed
    case JsonNull => PipelineFailed
    case Fields(f) =>
      if ScriptMissing(f.script) then ScriptRequired
      else
        match process(Payload(f))
        case Produced(sb) => Reply(sb)
        case Threw => PipelineFailed
  }

  /** A rejected request never reaches the compiler: the reply is the same
      whatever the compiler would have done. */
  lemma RejectionIgnoresCompiler(body: Body, p1: PipelineInput -> ProcessResult, p2: PipelineInput -> ProcessResult)
    requires body.Fields? && (body.fields.script.None? || AllWhitespace(body.fields.script.value))
    ensures Post(body, p1) == Post(body, p2) == ErrorReply(400, "Script is required.")
  {
  }
}
