/**
 * The skip-workout dialog: the reason field's validators, which decide when
 * the dialog closes with the reason, and the stricter `sensibleReason` check
 * that the component defines but does not attach to the field.
 */
module SkipDialog {
  import opened Wrappers

  /** The field's length limit. */
  const MaxReasonLength: nat := 200

  /**
   * The two objections `sensibleReason` can raise, each reported under the
   * `nonsense` key: "Reason cannot be only numbers." and "Reason is too short."
   */
  datatype Nonsense = OnlyNumbers | TooShort

  /** `\d` in a JavaScript regular expression without the `u` flag: an ASCII digit. */
  predicate IsDigit(c: char)
  {
    '0' <= c <= '9'
  }

  /** `/^\d+$/`: one or more digits and nothing else. */
  predicate AllDigits(s: string)
  {
    |s| > 0 && forall i :: 0 <= i < |s| ==> IsDigit(s[i])
  }

  /** The white space and line terminators that JavaScript's `trim` removes. */
  predicate IsTrimmable(c: char)
  {
    || c == '\t' || c == '\n' || c == '\U{000B}' || c == '\U{000C}' || c == '\r' || c == ' '
    || c == '\U{00A0}' || c == '\U{1680}' || ('\U{2000}' <= c <= '\U{200A}')
    || c == '\U{2028}' || c == '\U{2029}' || c == '\U{202F}' || c == '\U{205F}'
    || c == '\U{3000}' || c == '\U{FEFF}'
  }

  /** Drop leading white space: what remains is a suffix that starts with a non-space, if anything. */
  function TrimStart(s: string): (r: string)
    ensures |r| <= |s| && r == s[|s| - |r|..]
    ensures forall i :: 0 <= i < |s| - |r| ==> IsTrimmable(s[i])
    ensures r != [] ==> !IsTrimmable(r[0])
    decreases |s|
  {
    if s != [] && IsTrimmable(s[0]) then
      var r := TrimStart(s[1..]);
      assert forall i :: 1 <= i < |s| ==> s[1..][i - 1] == s[i];
      r
    else s
  }

  /** Drop trailing white space: what remains is a prefix that ends with a non-space, if anything. */
  function TrimEnd(s: string): (r: string)
    ensures |r| <= |s| && r == s[..|r|]
    ensures forall i :: |r| <= i < |s| ==> IsTrimmable(s[i])
    ensures r != [] ==> !IsTrimmable(r[|r| - 1])
    decreases |s|
  {
    if s != [] && IsTrimmable(s[|s| - 1]) then
      var r := TrimEnd(s[..|s| - 1]);
      assert forall i :: 0 <= i < |s| - 1 ==> s[..|s| - 1][i] == s[i];
      r
    else s
  }

  /** JavaScript's `trim`. */
  function Trim(s: string): (r: string)
    ensures exists a, b :: 0 <= a <= b <= |s| && r == s[a..b]
                           && forall i :: (0 <= i < a || b <= i < |s|) ==> IsTrimmable(s[i])
    ensures r != [] ==> !IsTrimmable(r[0]) && !IsTrimmable(r[|r| - 1])
  {
    var t := TrimStart(s);
    var r := TrimEnd(t);
    SliceOfSuffixPrefix(s, t, r);
    r
  }

  /** A prefix of a suffix is a slice of the whole. */
  lemma SliceOfSuffixPrefix(s: string, t: string, r: string)
    requires |t| <= |s| && t == s[|s| - |t|..]
    requires |r| <= |t| && r == t[..|r|]
    ensures r == s[|s| - |t|..|s| - |t| + |r|]
    ensures forall i :: |s| - |t| + |r| <= i < |s| ==> s[i] == t[i - (|s| - |t|)]
  {
  }

  /** A string of white space only trims to nothing. */
  lemma TrimWhitespaceOnly(s: string)
    requires forall i :: 0 <= i < |s| ==> IsTrimmable(s[i])
    ensures Trim(s) == ""
  {
  }

  /** Trimming keeps every character that is not white space. */
  lemma TrimKeepsText(s: string, i: nat)
    requires i < |s| && !IsTrimmable(s[i])
    ensures s[i] in Trim(s)
  {
    var t := TrimStart(s);
    var k := i - (|s| - |t|);
    assert t[k] == s[i];
    var u := TrimEnd(t);
    assert k < |u|;
    assert u[k] == s[i];
  }

  /**
   * The `sensibleReason` check on a field value (`None` for an empty control,
   * read as ""): all digits is "only numbers"; otherwise a trimmed length of
   * one or two is "too short"; anything else passes.
   */
  function SensibleReason(control: Option<string>): (r: Option<Nonsense>)
    ensures var value := control.GetOr("");
            && (r == Some(OnlyNumbers) <==> AllDigits(value))
            && (r == Some(TooShort) <==> !AllDigits(value) && 0 < |Trim(value)| < 3)
            && (r.None? <==> !AllDigits(value) && (Trim(value) == "" || |Trim(value)| >= 3))
  {
    var value := control.GetOr("");
    if AllDigits(value) then Some(OnlyNumbers)
    else if |Trim(value)| > 0 && |Trim(value)| < 3 then Some(TooShort)
    else None
  }

  /** The digit check comes first: "12", though short, is refused as only numbers. */
  lemma DigitsCheckedFirst()
    ensures SensibleReason(Some("12")) == Some(OnlyNumbers)
  {
    assert AllDigits("12");
  }

  /** A missing, empty or blank value passes `sensibleReason`. */
  lemma BlankIsSensible(value: string)
    requires forall i :: 0 <= i < |value| ==> IsTrimmable(value[i])
    ensures SensibleReason(None) == None
    ensures SensibleReason(Some(value)) == None
  {
    TrimWhitespaceOnly(value);
    if |value| > 0 {
      assert !IsDigit(value[0]);
    }
  }

  /**
   * A value passes `sensibleReason` when it has two characters two positions
   * apart that are not white space, the first of them not a digit: its trim
   * is then at least three long and it is not all digits.
   */
  lemma ThreeLettersAreSensible(value: string, i: nat)
    requires i + 2 < |value|
    requires !IsTrimmable(value[i]) && !IsTrimmable(value[i + 2]) && !IsDigit(value[i])
    ensures SensibleReason(Some(value)) == None
  {
    var t := TrimStart(value);
    var off := |value| - |t|;
    assert t[i - off] == value[i] && t[i + 2 - off] == value[i + 2];
    var u := TrimEnd(t);
    assert i + 2 - off < |u|;
    assert |Trim(value)| >= 3;
  }

  /**
   * Submitting closes the dialog with the reason exactly when the field's
   * validators pass: the reason is not empty and has at most 200 characters.
   */
  function Submit(reason: string): (r: Option<string>)
    ensures r.Some? <==> 0 < |reason| <= MaxReasonLength
    ensures r.Some? ==> r.value == reason
  {
    if |reason| > 0 && |reason| <= MaxReasonLength then Some(reason) else None
  }

  /**
   * `sensibleReason` is not attached to the field: a reason it objects to,
   * such as "12", still closes the dialog.
   */
  lemma SubmitSkipsSensibleReason()
    ensures SensibleReason(Some("12")).Some? && Submit("12") == Some("12")
  {
    DigitsCheckedFirst();
  }
}
