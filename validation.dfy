/** The check applied to every generated answer before it reaches the user,
    and the refusal that replaces a rejected answer
    (src/cortex/runtime/Validation.ts). */
module Validation {
  import opened Wrappers
  import opened Text

  /** The banned substrings, in the order they are tried. */
  const BannedKeywords: seq<string> :=
    ["violence", "sexual", "drug", "illegal", "politics", "religion", "suicide"]

  const SafetyViolationReason: string := "Safety violation detected."

  const HardRefusal: string :=
    "Cortex has intercepted a violation of the Constitution or Safety Rules. The model's output has been discarded."

  /** `{ isValid, reason? }`. */
  datatype Verdict = Verdict(isValid: bool, reason: Option<string>)

  /** Some banned keyword from index `from` on occurs in the (lower-cased) text. */
  predicate BannedFrom(lowerText: string, from: nat) {
    exists j :: from <= j < |BannedKeywords| && Contains(lowerText, BannedKeywords[j])
  }

  /** The keyword loop, from keyword `i` on: the first keyword found ends it
      with a violation; running out of keywords lets the text through. */
  function Scan(lowerText: string, i: nat): (v: Verdict)
    requires i <= |BannedKeywords|
    ensures !v.isValid <==> BannedFrom(lowerText, i)
    ensures v.isValid ==> v.reason.None?
    ensures !v.isValid ==> v.reason == Some(SafetyViolationReason)
    decreases |BannedKeywords| - i
  {
    if i == |BannedKeywords| then Verdict(true, None)
    else if Contains(lowerText, BannedKeywords[i]) then Verdict(false, Some(SafetyViolationReason))
    else Scan(lowerText, i + 1)
  }

  /** `validateOutput`: the text is rejected, with the safety reason, exactly
      when its lower-case form contains a banned keyword; otherwise it is
      valid and carries no reason. The phrases about a syllabus or a textbook
      that the source tests afterwards do not enter the verdict. */
  function ValidateOutput(text: string): (v: Verdict)
    ensures !v.isValid <==> exists k | k in BannedKeywords :: Contains(Lower(text), k)
    ensures v.isValid <==> v.reason.None?
    ensures !v.isValid ==> v.reason == Some(SafetyViolationReason)
  {
    var v := Scan(Lower(text), 0);
    assert BannedFrom(Lower(text), 0) <==> exists k | k in BannedKeywords :: Contains(Lower(text), k) by {
      if exists k | k in BannedKeywords :: Contains(Lower(text), k) {
        var k :| k in BannedKeywords && Contains(Lower(text), k);
        var j :| 0 <= j < |BannedKeywords| && BannedKeywords[j] == k;
      }
    }
    v
  }

  /** The verdict depends only on the lower-case form of the text. */
  lemma ValidateIgnoresCase(text: string)
    ensures ValidateOutput(Lower(text)) == ValidateOutput(text)
  {
    LowerIdempotent(text);
  }

  /** Embedding a rejected text in any surrounding text is still rejected. */
  lemma InvalidPreservedByExtension(p: string, t: string, s: string)
    requires !ValidateOutput(t).isValid
    ensures !ValidateOutput(p + t + s).isValid
  {
    var k :| k in BannedKeywords && Contains(Lower(t), k);
    LowerConcat(p + t, s);
    LowerConcat(p, t);
    ContainsEmbedded(Lower(p), Lower(t), Lower(s), k);
    assert Lower(p + t + s) == Lower(p) + Lower(t) + Lower(s);
  }

  /** `getHardRefusal`: one fixed text, whatever the reason. */
  function GetHardRefusal(reason: Option<string>): (r: string)
    ensures r == HardRefusal
  {
    HardRefusal
  }

  /** The refusal is the same for every reason. */
  lemma HardRefusalIgnoresReason(a: Option<string>, b: Option<string>)
    ensures GetHardRefusal(a) == GetHardRefusal(b)
  {
    assert GetHardRefusal(a) == HardRefusal;
  }
}
