/** `Hacks/src/lib/utils/errorHandler.ts`: the error text shown and logged. */
module ErrorHandler {
  import opened Wrappers
  import Seqs

  /** What a `catch` clause receives: an `Error` object, or any other thrown value. */
  datatype Thrown = ErrorObject(message: string) | NonError

  predicate IsAngle(c: char) { c == '<' || c == '>' }

  predicate KeepChar(c: char) { !IsAngle(c) }

  /** `message.replace(/[<>]/g, '')`. */
  function StripAngles(s: string): (r: string)
    ensures |r| <= |s|
    ensures forall i :: 0 <= i < |r| ==> !IsAngle(r[i])
  {
    if s == [] then [] else (if IsAngle(s[0]) then [] else [s[0]]) + StripAngles(s[1..])
  }

  /** Stripping deletes exactly the angle brackets and keeps every other character in order. */
  lemma {:induction false} StripAnglesKeepsOthers(s: string)
    ensures StripAngles(s) == Seqs.Filter(s, KeepChar)
  {
    if s != [] {
      StripAnglesKeepsOthers(s[1..]);
    }
  }

  /** A text without angle brackets is left as it is. */
  lemma {:induction false} StripAnglesNoop(s: string)
    requires forall i :: 0 <= i < |s| ==> !IsAngle(s[i])
    ensures StripAngles(s) == s
  {
    if s != [] {
      StripAnglesNoop(s[1..]);
      assert s == [s[0]] + s[1..];
    }
  }

  function SanitizeErrorMessage(error: Thrown): (r: string)
    ensures forall i :: 0 <= i < |r| ==> r[i] != '<' && r[i] != '>'
    ensures error.ErrorObject? ==> r == Seqs.Filter(error.message, KeepChar)
    ensures error.NonError? ==> r == "An unknown error occurred"
  {
    match error
    case ErrorObject(m) => StripAnglesKeepsOthers(m); StripAngles(m)
    case NonError => "An unknown error occurred"
  }

  /** Sanitizing an already sanitized message changes nothing. */
  lemma SanitizeIdempotent(error: Thrown)
    ensures SanitizeErrorMessage(ErrorObject(SanitizeErrorMessage(error))) == SanitizeErrorMessage(error)
  {
    StripAnglesNoop(SanitizeErrorMessage(error));
  }

  /** The line `logError` writes: the sanitized message, prefixed by `[context] ` when a context is given. */
  function LogMessage(error: Thrown, context: Option<string>): (r: string)
    ensures context.Some? && context.value != "" ==>
      r == "[" + context.value + "] " + SanitizeErrorMessage(error)
    ensures context.None? || context.value == "" ==> r == SanitizeErrorMessage(error)
  {
    var m := SanitizeErrorMessage(error);
    if context.Some? && context.value != "" then "[" + context.value + "] " + m else m
  }
}
