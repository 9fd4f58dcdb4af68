/**
  The body of a publish request (`MessageRequest`): the message text, the
  requested QoS and retained flag, their defaults, and the two Bean
  Validation constraints on the message, `@NotBlank` and `@Size(min = 1,
  max = 1000)`.
 */
module Dto {
  import opened Optional

  /** Java's 32-bit `int`. */
  newtype Int32 = x: int | -0x8000_0000 <= x < 0x8000_0000

  const MinMessageLength: nat := 1
  const MaxMessageLength: nat := 1000
  const DefaultQos: Int32 := 1
  const DefaultRetained: bool := false

  /** `message` is `None` when the request left it null. */
  datatype MessageRequest = MessageRequest(message: Option<string>, qos: Int32, retained: bool)

  /** The request the no-argument constructor (and so JSON binding of a
      body with no fields) produces: the field initialisers apply. */
  function Empty(): (r: MessageRequest)
    ensures r.message == None && r.qos == DefaultQos && r.retained == DefaultRetained
  {
    MessageRequest(None, 1, false)
  }

  /** The builder: every field left unset takes its `@Builder.Default`
      value; `message` has none, so it stays null. */
  function Build(message: Option<string>, qos: Option<Int32>, retained: Option<bool>): (r: MessageRequest)
    ensures r.message == message
    ensures qos == None ==> r.qos == DefaultQos
    ensures retained == None ==> r.retained == DefaultRetained
    ensures qos != None ==> r.qos == qos.value
    ensures retained != None ==> r.retained == retained.value
  {
    MessageRequest(message,
                   match qos case Some(q) => q case None => 1,
                   match retained case Some(b) => b case None => false)
  }

  // ----- Java's String.trim(), on which @NotBlank is decided -----

  /** A character `String.trim()` removes: any code point up to U+0020. */
  predicate IsTrimmed(c: char) {
    c <= ' '
  }

  /** Every character of `s` is one that `trim()` removes. */
  predicate AllTrimmed(s: string) {
    forall i :: 0 <= i < |s| ==> IsTrimmed(s[i])
  }

  /** `s` without its leading trimmable characters. */
  function TrimStart(s: string): (t: string)
    ensures |t| <= |s| && t == s[|s| - |t|..]
    ensures AllTrimmed(s[..|s| - |t|])
    ensures t == [] || !IsTrimmed(t[0])
    ensures t == [] <==> AllTrimmed(s)
  {
    if |s| > 0 && IsTrimmed(s[0]) then
      var t := TrimStart(s[1..]);
      assert s[..|s| - |t|] == [s[0]] + s[1..][..|s[1..]| - |t|];
      t
    else
      s
  }

  /** `s` without its trailing trimmable characters. */
  function TrimEnd(s: string): (t: string)
    ensures |t| <= |s| && t == s[..|t|]
    ensures AllTrimmed(s[|t|..])
    ensures t == [] || !IsTrimmed(t[|t| - 1])
    ensures t == [] <==> AllTrimmed(s)
  {
    if |s| > 0 && IsTrimmed(s[|s| - 1]) then
      var t := TrimEnd(s[..|s| - 1]);
      assert s[|t|..] == s[..|s| - 1][|t|..] + [s[|s| - 1]];
      t
    else
      s
  }

  /** `s.trim()`: leading and trailing trimmable characters removed. */
  function Trim(s: string): (t: string)
    ensures exists i :: 0 <= i <= |s| - |t| && s[i..i + |t|] == t
                        && AllTrimmed(s[..i]) && AllTrimmed(s[i + |t|..])
  {
    var u := TrimStart(s);
    var t := TrimEnd(u);
    var i := |s| - |u|;
    assert s[i..i + |t|] == u[..|t|];
    assert s[i + |t|..] == u[|t|..];
    t
  }

  /** The trimmed string is empty exactly when every character is trimmable,
      and otherwise it is a substring that starts and ends with a character
      `trim()` keeps. */
  lemma TrimSpec(s: string)
    ensures Trim(s) == [] <==> AllTrimmed(s)
    ensures Trim(s) != [] ==> !IsTrimmed(Trim(s)[0]) && !IsTrimmed(Trim(s)[|Trim(s)| - 1])
  {
    var t := TrimStart(s);
    if t != [] {
      assert !AllTrimmed(t) by { assert !IsTrimmed(t[0]); }
      assert Trim(s)[0] == t[0];
    }
  }

  // ----- The two constraints on `message` -----

  /** `@NotBlank`: not null, and not empty once trimmed. */
  predicate NotBlank(message: Option<string>)
    ensures NotBlank(message) <==>
      message.Some? && exists i :: 0 <= i < |message.value| && !IsTrimmed(message.value[i])
  {
    match message
    case None => false
    case Some(m) => TrimSpec(m); Trim(m) != []
  }

  /** `@Size(min = 1, max = 1000)`: a null string satisfies it. */
  predicate SizeInRange(message: Option<string>)
    ensures message == None ==> SizeInRange(message)
    ensures message != None ==> (SizeInRange(message) <==> 0 < |message.value| <= 1000)
  {
    message.Some? ==> MinMessageLength <= |message.value| <= MaxMessageLength
  }

  /** A constraint a request can break. */
  datatype Violation = Blank | SizeOutOfRange

  /** Every constraint violation validation reports for `r`; validation
      checks all constraints and reports all that fail. */
  function Violations(r: MessageRequest): (v: set<Violation>)
    ensures Blank in v <==> !NotBlank(r.message)
    ensures SizeOutOfRange in v <==> !SizeInRange(r.message)
  {
    (if NotBlank(r.message) then {} else {Blank})
    + (if SizeInRange(r.message) then {} else {SizeOutOfRange})
  }

  /** A request the controller accepts. */
  predicate IsValid(r: MessageRequest)
    ensures IsValid(r) <==> NotBlank(r.message) && |r.message.value| <= MaxMessageLength
  {
    Violations(r) == {}
  }

  /** A request is accepted exactly when its message is present, holds at
      least one character `trim()` keeps, and is at most 1000 characters
      long; `qos` and `retained` play no part. */
  lemma ValidIff(r: MessageRequest)
    ensures IsValid(r) <==>
      && r.message.Some?
      && |r.message.value| <= MaxMessageLength
      && exists i :: 0 <= i < |r.message.value| && !IsTrimmed(r.message.value[i])
  {
    if r.message.Some? {
      TrimSpec(r.message.value);
    }
  }

  /** Non-blank already implies the lower size bound. */
  lemma NotBlankImpliesNonEmpty(message: Option<string>)
    requires NotBlank(message)
    ensures |message.value| >= MinMessageLength
  {
    TrimSpec(message.value);
  }

  /** Every accepted message has between 1 and 1000 characters and one
      above U+0020. */
  lemma ValidBounds(r: MessageRequest)
    requires IsValid(r)
    ensures r.message.Some?
    ensures MinMessageLength <= |r.message.value| <= MaxMessageLength
    ensures !AllTrimmed(r.message.value)
  {
    TrimSpec(r.message.value);
  }

  /** A null message, or one made only of characters up to U+0020, is rejected as blank. */
  lemma BlankRejected(r: MessageRequest)
    requires r.message.None? || AllTrimmed(r.message.value)
    ensures Blank in Violations(r) && !IsValid(r)
  {
    if r.message.Some? {
      TrimSpec(r.message.value);
    }
  }

  /** A message shorter than 1 or longer than 1000 characters is rejected
      for its size; the empty message also counts as blank. */
  lemma SizeRejected(r: MessageRequest)
    requires r.message.Some?
    requires |r.message.value| < MinMessageLength || |r.message.value| > MaxMessageLength
    ensures SizeOutOfRange in Violations(r) && !IsValid(r)
    ensures r.message.value == [] ==> Violations(r) == {Blank, SizeOutOfRange}
  {
  }

  /** Validity depends on the message alone: any QoS and either retained
      flag are accepted. */
  lemma ValidityIgnoresQosAndRetained(r: MessageRequest, qos: Int32, retained: bool)
    ensures IsValid(r.(qos := qos, retained := retained)) == IsValid(r)
  {
  }
}
