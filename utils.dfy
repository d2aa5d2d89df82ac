/**
 * The shared string helpers (`safe_filename`, `truncate_text`) and the
 * attempt-counting control flow of `retry_async`. The awaited function is
 * an oracle giving the outcome of each attempt; the back-off sleeps are
 * left out.
 */
module Utils {
  import opened Wrappers
  import opened Text

  // ----- safe_filename -----

  /** `\w` on an ASCII character: letters, digits and the underscore. */
  predicate IsWordChar(c: char) {
    ('a' <= c <= 'z') || ('A' <= c <= 'Z') || ('0' <= c <= '9') || c == '_'
  }

  /** The characters `[\w\-_.]` lets through. */
  predicate SafeChar(c: char) {
    IsWordChar(c) || c == '-' || c == '_' || c == '.'
  }

  /** `re.sub(r'[^\w\-_.]', '_', filename)`: each character outside the class becomes one underscore. */
  function SafeFilename(filename: string): (r: string)
    ensures |r| == |filename|
    ensures forall i :: 0 <= i < |r| ==> SafeChar(r[i])
  {
    seq(|filename|, i requires 0 <= i < |filename| => if SafeChar(filename[i]) then filename[i] else '_')
  }

  /** Characters already in the class are kept and only the others are replaced. */
  lemma SafeFilenameKeeps(filename: string, i: nat)
    requires i < |filename|
    ensures SafeChar(filename[i]) <==> SafeFilename(filename)[i] == filename[i]
    ensures !SafeChar(filename[i]) ==> SafeFilename(filename)[i] == '_'
  {
  }

  /** A name is left alone exactly when it is already safe, so the function is idempotent. */
  lemma SafeFilenameFixpoint(filename: string)
    ensures SafeFilename(filename) == filename <==> forall i :: 0 <= i < |filename| ==> SafeChar(filename[i])
    ensures SafeFilename(SafeFilename(filename)) == SafeFilename(filename)
  {
    if SafeFilename(filename) == filename {
      forall i | 0 <= i < |filename| ensures SafeChar(filename[i]) {
        assert SafeFilename(filename)[i] == filename[i];
      }
    }
  }

  // ----- truncate_text -----

  /** Python's `s[:j]`, where a negative `j` counts from the end. */
  function PrefixTo(s: string, j: int): (r: string)
    ensures |r| <= |s|
    ensures r == s[..|r|]
  {
    if j >= 0 then (if j <= |s| then s[..j] else s)
    else if |s| + j >= 0 then s[..|s| + j] else []
  }

  const Ellipsis := "..."

  /** `truncate_text`: the text if it fits, else `text[:max_length-3]` followed by the ellipsis. */
  function TruncateText(text: string, maxLength: int): string {
    if |text| <= maxLength then text else PrefixTo(text, maxLength - 3) + Ellipsis
  }

  /**
   * Text that fits comes back unchanged; longer text, with a limit of at
   * least three, comes back exactly at the limit: a prefix of the text
   * and the ellipsis.
   */
  lemma TruncateFits(text: string, maxLength: int)
    ensures |text| <= maxLength ==> TruncateText(text, maxLength) == text
    ensures |text| > maxLength >= 3 ==>
              var r := TruncateText(text, maxLength);
              && |r| == maxLength
              && r == text[..maxLength - 3] + Ellipsis
              && EndsWith(r, Ellipsis)
  {
    if |text| > maxLength >= 3 {
      var r := TruncateText(text, maxLength);
      assert r[|r| - 3..] == Ellipsis;
    }
  }

  /**
   * Below three the prefix index goes negative and Python counts it from
   * the end, so the result is longer than the limit: `text[:-k]` keeps all
   * but k characters.
   */
  lemma TruncateSmallLimit(text: string, maxLength: int)
    requires maxLength < 3 && |text| > maxLength
    ensures var r := TruncateText(text, maxLength);
            && EndsWith(r, Ellipsis)
            && |r| == (if |text| + maxLength - 3 >= 0 then |text| + maxLength - 3 else 0) + 3
            && |r| > maxLength
  {
    var r := TruncateText(text, maxLength);
    assert r[|r| - 3..] == Ellipsis;
  }

  // ----- retry_async -----

  /** How a call of `retry_async` ends: the value returned, the exception re-raised, or `None` when no attempt ran. */
  datatype RetryOutcome<T> = Returned(value: T) | Raised(error: string) | NoAttempt

  /**
   * `retry_async`'s loop: `attempt(i)` is the outcome of the i-th await of
   * `func`. It stops at the first success, re-raises the final attempt's
   * exception, and falls through with `None` when `max_attempts` is not
   * positive; `calls` counts the awaits.
   */
  method RetryAsync<T>(attempt: nat -> Result<T>, maxAttempts: int) returns (outcome: RetryOutcome<T>, calls: nat)
    ensures maxAttempts <= 0 <==> outcome.NoAttempt?
    ensures maxAttempts <= 0 ==> calls == 0
    ensures maxAttempts > 0 ==> 1 <= calls <= maxAttempts
    ensures forall j :: 0 <= j < calls - 1 ==> attempt(j).Err?
    ensures outcome.Returned? ==> attempt(calls - 1) == Ok(outcome.value)
    ensures outcome.Raised? ==> calls == maxAttempts && attempt(calls - 1) == Err(outcome.error)
  {
    calls := 0;
    var i := 0;
    while i < maxAttempts
      invariant 0 <= i && (maxAttempts > 0 ==> i < maxAttempts) && (maxAttempts <= 0 ==> i == 0)
      invariant calls == i
      invariant forall j :: 0 <= j < i ==> attempt(j).Err?
    {
      calls := calls + 1;
      match attempt(i)
      case Ok(v) =>
        return Returned(v), calls;
      case Err(e) =>
        if i == maxAttempts - 1 {
          return Raised(e), calls;
        }
        i := i + 1;
    }
    outcome := NoAttempt;
  }
}
