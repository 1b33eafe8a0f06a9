/**
 * Input checks of app/utils/validation.py: the WhatsApp address shape, the
 * control-character filter with truncation, and event-title validation.
 *
 * `\d` is read as the ASCII digits.
 */
module Validation {
  import opened Common

  // ---------------------------------------------------------------------
  // validate_phone_number
  // ---------------------------------------------------------------------

  const PhonePrefix := "whatsapp:+"

  /**
   * What `\d{10,15}` must cover: the text after the prefix, less one trailing
   * newline, since `$` also matches just before a final newline.
   */
  function PhoneDigits(phone: string): (d: string)
    requires StartsWith(phone, PhonePrefix)
    ensures phone == PhonePrefix + d || phone == PhonePrefix + d + "\n"
  {
    var rest := phone[|PhonePrefix|..];
    assert phone == PhonePrefix + rest;
    if rest != [] && rest[|rest| - 1] == '\n' then
      assert rest == rest[..|rest| - 1] + "\n";
      rest[..|rest| - 1]
    else rest
  }

  /** `re.match(r'^whatsapp:\+\d{10,15}$', phone)`, false for the empty string. */
  function ValidatePhoneNumber(phone: string): (r: bool)
    ensures phone == "" ==> !r
    ensures r ==> StartsWith(phone, PhonePrefix) && AllDigits(PhoneDigits(phone)) && 10 <= |PhoneDigits(phone)| <= 15
  {
    phone != "" && StartsWith(phone, PhonePrefix)
    && var d := PhoneDigits(phone); 10 <= |d| <= 15 && AllDigits(d)
  }

  /**
   * The accepted numbers are exactly the prefix followed by 10 to 15 digits,
   * optionally followed by one newline.
   */
  lemma PhoneShape(d: string, newline: bool)
    requires !newline ==> d == [] || d[|d| - 1] != '\n'
    ensures ValidatePhoneNumber(PhonePrefix + d + (if newline then "\n" else ""))
        <==> AllDigits(d) && 10 <= |d| <= 15
  {
    var phone := PhonePrefix + d + (if newline then "\n" else "");
    assert StartsWith(phone, PhonePrefix);
    var rest := phone[|PhonePrefix|..];
    assert rest == d + (if newline then "\n" else "");
    if newline {
      assert rest[..|rest| - 1] == d;
    }
    assert PhoneDigits(phone) == d;
  }

  // ---------------------------------------------------------------------
  // sanitize_text_input
  // ---------------------------------------------------------------------

  /** `ord(char) >= 32 or char in '\n\r\t'` */
  predicate Allowed(c: char)
  {
    c as int >= 32 || c == '\n' || c == '\r' || c == '\t'
  }

  predicate AllAllowed(s: string)
  {
    forall i :: 0 <= i < |s| ==> Allowed(s[i])
  }

  /** The filtering comprehension. */
  function Filtered(text: string): (r: string)
    ensures AllAllowed(r) && |r| <= |text|
  {
    if text == [] then []
    else (if Allowed(text[0]) then [text[0]] else []) + Filtered(text[1..])
  }

  /** Text with no control characters passes the filter unchanged. */
  lemma {:induction false} FilteredKeepsAllowed(text: string)
    requires AllAllowed(text)
    ensures Filtered(text) == text
  {
    if text != [] {
      FilteredKeepsAllowed(text[1..]);
      assert text == [text[0]] + text[1..];
    }
  }

  /** Python's `s[:n]`, with a negative `n` counting from the end. */
  function PyPrefix(s: string, n: int): (r: string)
    ensures n >= 0 ==> |r| == if n < |s| then n else |s|
    ensures |r| <= |s| && r == s[..|r|]
  {
    if n >= 0 then (if n < |s| then s[..n] else s)
    else if |s| + n > 0 then s[..|s| + n] else []
  }

  /** Stripping never brings back a character the input did not have. */
  lemma StripAllowed(s: string)
    requires AllAllowed(s)
    ensures AllAllowed(Strip(s))
  {
    var r := Strip(s);
    forall i | 0 <= i < |r| ensures Allowed(r[i]) {
      assert r[i] in s;
    }
  }

  /** A string ending in `"..."` keeps those dots through `strip()`. */
  lemma StripKeepsDots(x: string)
    ensures EndsWith(Strip(x + "..."), "...")
  {
    var y := x + "...";
    var t := TrimStart(y);
    assert !IsSpace(y[|y| - 3]);
    assert |t| >= 3;
    assert t[|t| - 3..] == y[|y| - 3..];
    assert t[|t| - 1] == '.';
    assert TrimEnd(t) == t;
  }

  /** `sanitize_text_input(text, max_length)` */
  function SanitizeTextInput(text: string, maxLength: int): (r: string)
    ensures text == "" ==> r == ""
    ensures AllAllowed(r)
    ensures r != [] ==> !IsSpace(r[0]) && !IsSpace(r[|r| - 1])
    ensures maxLength >= 0 ==> |r| <= maxLength + 3
    ensures text != "" && |Filtered(text)| <= maxLength ==> r == Strip(Filtered(text))
    ensures text != "" && |Filtered(text)| > maxLength ==> EndsWith(r, "...")
  {
    if text == "" then ""
    else
      var f := Filtered(text);
      var t := if |f| > maxLength then PyPrefix(f, maxLength) + "..." else f;
      assert AllAllowed(t) by {
        if |f| > maxLength {
          var p := PyPrefix(f, maxLength);
          assert forall i :: 0 <= i < |p| ==> p[i] == f[i];
        }
      }
      StripAllowed(t);
      if |f| > maxLength then StripKeepsDots(PyPrefix(f, maxLength)); Strip(t)
      else Strip(t)
  }

  /** Text without control characters and within the limit is only stripped. */
  lemma PlainTextIsOnlyStripped(text: string, maxLength: int)
    requires text != "" && AllAllowed(text) && |text| <= maxLength
    ensures SanitizeTextInput(text, maxLength) == Strip(text)
  {
    FilteredKeepsAllowed(text);
  }

  // ---------------------------------------------------------------------
  // validate_event_title
  // ---------------------------------------------------------------------

  /** `validate_event_title`: `None` for a blank title, or when sanitising at 200 characters leaves nothing. */
  function ValidateEventTitle(title: string): (r: Option<string>)
    ensures Strip(title) == "" ==> r.None?
    ensures Strip(title) != "" ==> (r.None? <==> SanitizeTextInput(title, 200) == "")
    ensures r.Some? ==> r.value == SanitizeTextInput(title, 200)
    ensures r.Some? ==> r.value != "" && |r.value| <= 203 && AllAllowed(r.value)
  {
    if title == "" || Strip(title) == "" then None
    else
      var s := SanitizeTextInput(title, 200);
      if s == "" then None else Some(s)
  }

  /** `" \x01 "` is not blank to `strip()` ... */
  lemma ControlCharNotBlank()
    ensures Strip(" \U{1} ") == "\U{1}"
  {
    var t := " \U{1} ";
    var u := "\U{1} ";
    assert t[1..] == u && IsSpace(t[0]) && !IsSpace(u[0]);
    assert TrimStart(t) == u;
    assert u[..1] == "\U{1}" && IsSpace(u[1]);
    assert TrimEnd(u) == "\U{1}";
  }

  /** ... but sanitising it leaves nothing. */
  lemma ControlCharSanitizedAway()
    ensures SanitizeTextInput(" \U{1} ", 200) == ""
  {
    FilteredExample();
    var t := "  ";
    assert t[1..] == " " && IsSpace(t[0]) && IsSpace(t[1]);
    assert TrimStart(" ") == "";
    assert TrimStart(t) == "";
    assert Strip(t) == "";
    assert |Filtered(" \U{1} ")| <= 200;
  }

  lemma FilteredExample()
    ensures Filtered(" \U{1} ") == "  "
  {
    var t := " \U{1} ";
    assert t[2..] == " " && Filtered(t[2..]) == " ";
    assert Filtered(t[1..]) == " ";
  }

  /** A title of nothing but spaces and control characters is rejected, though `strip()` does not find it blank. */
  lemma ControlOnlyTitleRejected()
    ensures Strip(" \U{1} ") != ""
    ensures ValidateEventTitle(" \U{1} ").None?
  {
    ControlCharNotBlank();
    ControlCharSanitizedAway();
  }
}
