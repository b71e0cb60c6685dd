/**
 * The few JavaScript string operations the checkout relies on:
 * `toUpperCase` (on the payment mode and the status badge),
 * `substring(0, 20)` followed by "..." (the receipt's id fields), and the
 * truthiness test of an optional string (`!customerName`, `x && (...)`).
 */
module Text {
  import opened Wrappers

  predicate IsLowerAscii(c: char)
  {
    'a' <= c <= 'z'
  }

  /** Upper-cases one character; only the ASCII letters a-z change. */
  function UpperChar(c: char): (u: char)
    ensures IsLowerAscii(c) ==> 'A' <= u <= 'Z' && u as int == c as int - 32
    ensures !IsLowerAscii(c) ==> u == c
  {
    if IsLowerAscii(c) then (c as int - 32) as char else c
  }

  /** `s.toUpperCase()`, restricted to ASCII letters. */
  function ToUpper(s: string): (r: string)
    ensures |r| == |s|
    ensures forall i :: 0 <= i < |s| ==> r[i] == UpperChar(s[i])
    ensures forall i :: 0 <= i < |r| ==> !IsLowerAscii(r[i])
    decreases |s|
  {
    if s == [] then [] else [UpperChar(s[0])] + ToUpper(s[1..])
  }

  /** Upper-casing twice changes nothing more. */
  lemma ToUpperIdempotent(s: string)
    ensures ToUpper(ToUpper(s)) == ToUpper(s)
  {
    var u := ToUpper(s);
    assert forall i :: 0 <= i < |u| ==> ToUpper(u)[i] == u[i];
  }

  /** The two payment modes the buttons pass, and the two badges, upper-cased. */
  lemma ModeAndBadgeSpellings()
    ensures ToUpper("cash") == "CASH" && ToUpper("upi") == "UPI"
    ensures ToUpper("paid") == "PAID" && ToUpper("received") == "RECEIVED"
  {
    UpperedTo("cash", "CASH");
    UpperedTo("upi", "UPI");
    UpperedTo("paid", "PAID");
    UpperedTo("received", "RECEIVED");
  }

  /** `t` is `s` upper-cased when they agree character by character. */
  lemma UpperedTo(s: string, t: string)
    requires |s| == |t| && forall i :: 0 <= i < |s| ==> UpperChar(s[i]) == t[i]
    ensures ToUpper(s) == t
  {
  }

  /** The maximum number of id characters the receipt shows. */
  const ShownIdLength: nat := 20

  /** `s.substring(0, 20) + "..."`. */
  function Shorten(s: string): (r: string)
    ensures |r| == (if |s| < ShownIdLength then |s| else ShownIdLength) + 3
    ensures r[..|r| - 3] <= s
    ensures r[|r| - 3..] == "..."
  {
    (if |s| < ShownIdLength then s else s[..ShownIdLength]) + "..."
  }

  /** JavaScript truthiness of an optional string: present and not "". */
  predicate Truthy(s: Option<string>)
  {
    s.Some? && s.value != ""
  }
}
