/**
 * Prompt enhancement (app.py, enhance_prompt_with_gemini): the user's prompt is
 * wrapped in a fixed instruction and sent to the text model; the model's text
 * is stripped of surrounding whitespace and cut to 1000 characters, the last
 * three of which are then "...". Any failure of the model call, or of reading
 * its text, falls back to the original prompt.
 */
module Enhancer {
  import opened Common

  /** What the text model does with one request: answer with text, or raise. */
  datatype ModelReply = Text(text: string) | Raised

  const MaxLength: nat := 1000
  const KeptOnTruncation: nat := 997
  const Marker: string := "..."

  /** The instruction sent to the text model around the user's prompt. */
  const Instruction: string :=
    "You are an expert in crafting prompts specifically for DALL\U{B7}E image generation. "
    + "Your task is to enhance the following input prompt while preserving its core idea. "
    + "Make the result vivid, emotionally engaging, and visually detailed. "
    + "Ensure strong composition, realistic lighting, and atmospheric depth. "
    + "Avoid adding excessive objects unless explicitly stated. "
    + "Keep the final prompt concise and under 1000 characters. "
    + "Input prompt: "

  function FullPrompt(prompt: string): (full: string)
    ensures |full| == |Instruction| + |prompt|
    ensures full[..|Instruction|] == Instruction && full[|Instruction|..] == prompt
  {
    Instruction + prompt
  }

  /** The characters Python's str.strip() removes: those str.isspace() accepts. */
  predicate IsSpace(c: char) {
    || ('\t' <= c <= '\r')
    || ('\U{1C}' <= c <= ' ')
    || c == '\U{85}' || c == '\U{A0}' || c == '\U{1680}'
    || ('\U{2000}' <= c <= '\U{200A}')
    || c == '\U{2028}' || c == '\U{2029}' || c == '\U{202F}' || c == '\U{205F}'
    || c == '\U{3000}'
  }

  predicate AllSpace(s: string) {
    forall k :: 0 <= k < |s| ==> IsSpace(s[k])
  }

  /** s without its leading whitespace: a suffix of s, preceded only by whitespace. */
  function TrimStart(s: string): (r: string)
    ensures |r| <= |s| && r == s[|s| - |r|..]
    ensures AllSpace(s[..|s| - |r|])
    ensures r == [] || !IsSpace(r[0])
  {
    if s != [] && IsSpace(s[0]) then
      var r := TrimStart(s[1..]);
      assert s[..|s| - |r|] == [s[0]] + s[1..][..|s| - 1 - |r|];
      r
    else s
  }

  /** s without its trailing whitespace: a prefix of s, followed only by whitespace. */
  function TrimEnd(s: string): (r: string)
    ensures |r| <= |s| && r == s[..|r|]
    ensures AllSpace(s[|r|..])
    ensures r == [] || !IsSpace(r[|r| - 1])
  {
    if s != [] && IsSpace(s[|s| - 1]) then
      var r := TrimEnd(s[..|s| - 1]);
      assert s[|r|..] == s[..|s| - 1][|r|..] + [s[|s| - 1]];
      r
    else s
  }

  /** r sits at position i of s with only whitespace before and after it. */
  predicate SlicedFromSpace(s: string, r: string, i: nat) {
    && i + |r| <= |s|
    && r == s[i..i + |r|]
    && AllSpace(s[..i])
    && AllSpace(s[i + |r|..])
  }

  /**
   * Python's str.strip(): the slice of s left after removing whitespace at both
   * ends; what was removed is whitespace and what is left neither starts nor
   * ends with whitespace.
   */
  function Strip(s: string): (r: string)
    ensures |r| <= |s|
    ensures r == [] || (!IsSpace(r[0]) && !IsSpace(r[|r| - 1]))
    ensures exists i: nat :: SlicedFromSpace(s, r, i)
  {
    var t := TrimStart(s);
    var r := TrimEnd(t);
    var i := |s| - |t|;
    assert r == s[i..i + |r|];
    assert s[i + |r|..] == t[|r|..];
    assert SlicedFromSpace(s, r, i);
    r
  }

  /** Stripping text that has no surrounding whitespace leaves it as it is. */
  lemma StripKeepsTrimmed(s: string)
    requires s == [] || (!IsSpace(s[0]) && !IsSpace(s[|s| - 1]))
    ensures Strip(s) == s
  {
  }

  /** Stripping twice is stripping once. */
  lemma StripIdempotent(s: string)
    ensures Strip(Strip(s)) == Strip(s)
  {
  }

  /** Text made only of whitespace strips to nothing. */
  lemma StripAllSpace(s: string)
    requires AllSpace(s)
    ensures Strip(s) == []
  {
  }

  /**
   * The length cap of app.py:81: text longer than 1000 characters becomes its
   * first 997 characters followed by "...", so exactly 1000 characters long;
   * shorter text is kept as it is.
   */
  function Truncate(t: string): (r: string)
    ensures |r| <= MaxLength
    ensures |t| <= MaxLength ==> r == t
    ensures |t| > MaxLength ==>
      |r| == MaxLength && r[..KeptOnTruncation] == t[..KeptOnTruncation]
      && r[KeptOnTruncation..] == Marker
  {
    if |t| > MaxLength then t[..KeptOnTruncation] + Marker else t
  }

  /**
   * enhance_prompt_with_gemini: ask the text model once with the wrapped prompt;
   * use its stripped, length-capped text, or the original prompt when it raises.
   */
  function Enhance(prompt: string, gemini: string -> ModelReply): (r: string)
    ensures gemini(FullPrompt(prompt)).Raised? ==> r == prompt
    ensures gemini(FullPrompt(prompt)).Text? ==>
      var t := Strip(gemini(FullPrompt(prompt)).text);
      && |r| <= MaxLength
      && (|t| <= MaxLength ==> r == t)
      && (|t| > MaxLength ==> |r| == MaxLength && r == t[..KeptOnTruncation] + Marker)
  {
    match gemini(FullPrompt(prompt))
    case Raised => prompt
    case Text(text) => Truncate(Strip(text))
  }

  /**
   * The 1000-character bound holds only for text the model produced: when the
   * model fails, a longer prompt comes back unchanged.
   */
  lemma FailureKeepsLongPrompt(prompt: string, gemini: string -> ModelReply)
    requires |prompt| > MaxLength
    requires gemini(FullPrompt(prompt)) == Raised
    ensures |Enhance(prompt, gemini)| > MaxLength
  {
  }

  /** A model answer that is only whitespace enhances the prompt into the empty string. */
  lemma BlankAnswerGivesEmptyPrompt(prompt: string, gemini: string -> ModelReply)
    requires gemini(FullPrompt(prompt)).Text?
    requires AllSpace(gemini(FullPrompt(prompt)).text)
    ensures Enhance(prompt, gemini) == []
  {
  }
}
