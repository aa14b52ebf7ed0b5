/**
 * The recipient list of the report form: the address pattern every
 * recipient must match, the add / remove / clear handlers over the list the
 * form holds, and the exported `validateRecipients` check.
 */
module RecipientForm {
  import opened Wrappers
  import opened Text
  import EmailService

  type Recipient = EmailService.Recipient

  /** A validator's verdict: valid, or the first problem found. */
  datatype Verdict = Verdict(isValid: bool, error: Option<string>)

  // ------------------------------------------------------------ the address pattern

  /**
   * The language of `/^[^\s@]+@[^\s@]+\.[^\s@]+$/`: no white space, exactly
   * one "@" with something before it, and after it a "." with at least one
   * character on each side.
   */
  ghost predicate EmailPattern(s: string)
  {
    NoWhitespace(s)
    && (exists a, b :: 0 < a && a + 2 <= b < |s| - 1 && s[a] == '@' && s[b] == '.' && OnlyAt(s, a))
  }

  /** Position `a` holds the only "@" of `s`. */
  predicate OnlyAt(s: string, a: int)
  {
    forall j :: 0 <= j < |s| && j != a ==> s[j] != '@'
  }

  /** The index of the first `c` in `s`, or `|s|` when there is none. */
  function FirstIndexOf(s: string, c: char): (i: nat)
    ensures i <= |s|
    ensures forall j :: 0 <= j < i ==> s[j] != c
    ensures i < |s| ==> s[i] == c
  {
    if |s| == 0 then 0
    else if s[0] == c then 0
    else 1 + FirstIndexOf(s[1..], c)
  }

  /** `emailRegex.test(s)`, decided by a scan for the "@" and a "." after it. */
  function IsEmail(s: string): (ok: bool)
    ensures ok <==> EmailPattern(s)
  {
    var a := FirstIndexOf(s, '@');
    var ok := NoWhitespace(s) && 0 < a && a + 3 < |s| && OnlyAt(s, a) && '.' in s[a + 2..|s| - 1];
    if ok then
      var k :| 0 <= k < |s[a + 2..|s| - 1]| && s[a + 2..|s| - 1][k] == '.';
      assert s[a + 2 + k] == '.';
      ok
    else
      assert !EmailPattern(s);
      ok
  }

  /** An address that matches has nothing for `trim` to remove, and is not blank. */
  lemma MatchingEmailIsTrimmed(s: string)
    requires EmailPattern(s)
    ensures Trim(s) == s && Trim(s) != ""
  {
    TrimNoWhitespace(s);
  }

  // ------------------------------------------------------------ the list

  /** `isDuplicateEmail`: some recipient has the address, ignoring case. */
  function IsDuplicateEmail(recipients: seq<Recipient>, email: string): (dup: bool)
    ensures dup <==> exists i :: 0 <= i < |recipients| && ToLower(recipients[i].email) == ToLower(email)
  {
    if |recipients| == 0 then false
    else
      var init := recipients[..|recipients| - 1];
      assert forall i :: 0 <= i < |init| ==> init[i] == recipients[i];
      IsDuplicateEmail(init, email) || ToLower(recipients[|recipients| - 1].email) == ToLower(email)
  }

  /** `recipients.filter((_, i) => i !== index)`. */
  function DropIndex(recipients: seq<Recipient>, index: int): (kept: seq<Recipient>)
    ensures kept == if 0 <= index < |recipients| then recipients[..index] + recipients[index + 1..] else recipients
  {
    if |recipients| == 0 then []
    else
      var last := |recipients| - 1;
      var init := DropIndex(recipients[..last], index);
      var r := init + (if last == index then [] else [recipients[last]]);
      if 0 <= index < last then
        calc {
          r;
          recipients[..last][..index] + recipients[..last][index + 1..] + [recipients[last]];
          { assert recipients[..last][..index] == recipients[..index];
            assert recipients[..last][index + 1..] + [recipients[last]] == recipients[index + 1..]; }
          recipients[..index] + recipients[index + 1..];
        }
        r
      else if index == last then
        assert recipients[index + 1..] == [];
        r
      else
        assert recipients[..last] + [recipients[last]] == recipients;
        r
  }

  /** The list the form keeps when it starts from an empty one: matching addresses, no two equal up to case. */
  predicate WellFormed(recipients: seq<Recipient>)
  {
    (forall i :: 0 <= i < |recipients| ==> IsEmail(recipients[i].email))
    && (forall i, j :: 0 <= i < j < |recipients| ==> ToLower(recipients[i].email) != ToLower(recipients[j].email))
  }

  /** Where the `i`-th kept recipient stood before the one at `index` was dropped. */
  function Source(i: nat, index: nat): nat
  {
    if i < index then i else i + 1
  }

  /** Appending a matching address that is not yet listed keeps a well-formed list well-formed. */
  lemma AppendKeepsWellFormed(recipients: seq<Recipient>, r: Recipient)
    requires IsEmail(r.email) && !IsDuplicateEmail(recipients, r.email)
    ensures WellFormed(recipients) ==> WellFormed(recipients + [r])
  {
    if !WellFormed(recipients) {
      return;
    }
    var next := recipients + [r];
    forall i, j | 0 <= i < j < |next|
      ensures ToLower(next[i].email) != ToLower(next[j].email)
    {
      if j == |recipients| {
        assert next[i] == recipients[i];
      }
    }
  }

  /** Removing one recipient keeps a well-formed list well-formed. */
  lemma DropIndexKeepsWellFormed(recipients: seq<Recipient>, index: int)
    requires WellFormed(recipients)
    ensures WellFormed(DropIndex(recipients, index))
  {
    var kept := DropIndex(recipients, index);
    if 0 <= index < |recipients| {
      forall i | 0 <= i < |kept|
        ensures kept[i] == recipients[Source(i, index)]
      {
      }
      forall i | 0 <= i < |kept|
        ensures IsEmail(kept[i].email)
      {
        assert kept[i] == recipients[Source(i, index)];
      }
      forall i, j | 0 <= i < j < |kept|
        ensures ToLower(kept[i].email) != ToLower(kept[j].email)
      {
        assert kept[i] == recipients[Source(i, index)] && kept[j] == recipients[Source(j, index)];
      }
    }
  }

  /** `!s.trim()`: nothing but white space. */
  function IsBlank(s: string): (b: bool)
    ensures b <==> AllWhitespace(s)
  {
    Trim(s) == ""
  }

  const RequiredMessage := "Email address is required"
  const InvalidMessage := "Please enter a valid email address"
  const DuplicateMessage := "This email address has already been added"

  /** `newName.trim() || undefined`. */
  function OptionalName(name: string): (n: Option<string>)
    ensures n.None? <==> AllWhitespace(name)
    ensures n.Some? ==> n.value != "" && !IsWhitespace(n.value[0])
  {
    var t := Trim(name);
    if t == "" then None else Some(t)
  }

  /** The component's state: the list, the two input fields, the field error and the lists handed to `onChange`. */
  class RecipientList {
    var recipients: seq<Recipient>
    var newEmail: string
    var newName: string
    var emailError: string
    var published: seq<seq<Recipient>>

    /** The list starts as the initial recipients, with empty inputs. */
    constructor(initial: seq<Recipient>)
      ensures recipients == initial && newEmail == "" && newName == "" && emailError == "" && published == []
    {
      recipients := if |initial| > 0 then initial else [];
      newEmail := "";
      newName := "";
      emailError := "";
      published := [];
    }

    /**
     * `handleAddRecipient`: a blank address, then one that does not match,
     * then one already listed is refused with its message; otherwise the
     * address is appended (trimmed, which leaves a matching address as
     * typed), the new list is published and the inputs are cleared.
     */
    method AddRecipient()
      modifies this
      ensures AllWhitespace(old(newEmail)) ==> emailError == RequiredMessage
      ensures !AllWhitespace(old(newEmail)) && !EmailPattern(old(newEmail)) ==> emailError == InvalidMessage
      ensures EmailPattern(old(newEmail)) && IsDuplicateEmail(old(recipients), old(newEmail)) ==> emailError == DuplicateMessage
      ensures emailError != "" ==>
        recipients == old(recipients) && published == old(published) && newEmail == old(newEmail) && newName == old(newName)
      ensures emailError == "" <==> EmailPattern(old(newEmail)) && !IsDuplicateEmail(old(recipients), old(newEmail))
      ensures emailError == "" ==>
        recipients == old(recipients) + [EmailService.Recipient(old(newEmail), OptionalName(old(newName)))]
        && published == old(published) + [recipients] && newEmail == "" && newName == ""
      ensures WellFormed(old(recipients)) ==> WellFormed(recipients)
    {
      emailError := "";
      if IsBlank(newEmail) {
        emailError := RequiredMessage;
        return;
      }
      if !IsEmail(newEmail) {
        emailError := InvalidMessage;
        return;
      }
      if IsDuplicateEmail(recipients, newEmail) {
        emailError := DuplicateMessage;
        return;
      }
      MatchingEmailIsTrimmed(newEmail);
      AppendKeepsWellFormed(recipients, EmailService.Recipient(newEmail, OptionalName(newName)));
      var added := EmailService.Recipient(Trim(newEmail), OptionalName(newName));
      recipients := recipients + [added];
      published := published + [recipients];
      newEmail := "";
      newName := "";
    }

    /** `handleRemoveRecipient`: drops the recipient at `index`, if there is one, and publishes the list. */
    method RemoveRecipient(index: int)
      modifies this
      ensures recipients == if 0 <= index < |old(recipients)| then old(recipients)[..index] + old(recipients)[index + 1..] else old(recipients)
      ensures published == old(published) + [recipients]
      ensures newEmail == old(newEmail) && newName == old(newName) && emailError == old(emailError)
      ensures WellFormed(old(recipients)) ==> WellFormed(recipients)
    {
      if WellFormed(recipients) {
        DropIndexKeepsWellFormed(recipients, index);
      }
      recipients := DropIndex(recipients, index);
      published := published + [recipients];
    }

    /** `handleClearAll`: empties the list and publishes it. */
    method ClearAll()
      modifies this
      ensures recipients == [] && WellFormed(recipients)
      ensures published == old(published) + [[]]
      ensures newEmail == old(newEmail) && newName == old(newName) && emailError == old(emailError)
    {
      recipients := [];
      published := published + [[]];
    }
  }

  // ------------------------------------------------------------ validateRecipients

  /** The message for a list shorter than `minimum`. */
  function TooFewMessage(minimum: int): string
  {
    "At least " + IntToString(minimum) + " recipient" + (if minimum != 1 then "s are" else " is") + " required"
  }

  /** With the default minimum the message is in the singular. */
  lemma TooFewMessageSingular()
    ensures TooFewMessage(1) == "At least 1 recipient is required"
  {
    assert IntToString(1) == "1";
  }

  /** Any other minimum, zero and negative ones included, takes the plural. */
  lemma TooFewMessagePlural(minimum: int)
    requires minimum != 1
    ensures StartsWith(TooFewMessage(minimum), "At least " + IntToString(minimum) + " ")
    ensures EndsWith(TooFewMessage(minimum), "recipients are required")
  {
    var head := "At least " + IntToString(minimum) + " ";
    var tail := "recipients are required";
    PluralWords();
    Regroup("At least ", IntToString(minimum), " recipient", "s are", " required", " ", tail);
    PrefixOfConcat(head, tail);
  }

  lemma PluralWords()
    ensures " recipient" + "s are" + " required" == " " + "recipients are required"
  {
  }

  lemma Regroup(a: string, b: string, c: string, d: string, e: string, x: string, y: string)
    requires c + d + e == x + y
    ensures a + b + c + d + e == (a + b + x) + y
  {
    calc {
      a + b + c + d + e;
      (a + b) + (c + d + e);
      (a + b) + (x + y);
      (a + b + x) + y;
    }
  }

  function InvalidAddressMessage(email: string): string
  {
    "Invalid email address: " + email
  }

  /** The scan both validators run: the position of the first address that does not match, if any. */
  method FindInvalidEmail(emails: seq<string>) returns (found: Option<nat>)
    ensures found.None? <==> forall i :: 0 <= i < |emails| ==> EmailPattern(emails[i])
    ensures found.Some? ==>
      found.value < |emails| && !EmailPattern(emails[found.value])
      && forall i :: 0 <= i < found.value ==> EmailPattern(emails[i])
  {
    for i := 0 to |emails|
      invariant forall j :: 0 <= j < i ==> EmailPattern(emails[j])
    {
      if !IsEmail(emails[i]) {
        return Some(i);
      }
    }
    return None;
  }

  /**
   * `validateRecipients`: too short a list is refused with the count
   * message; otherwise the first recipient whose address does not match is
   * named; otherwise the list is valid.
   */
  method ValidateRecipients(recipients: seq<Recipient>, minimum: int) returns (v: Verdict)
    ensures v.isValid <==> v.error.None?
    ensures v.isValid <==> |recipients| >= minimum && forall i :: 0 <= i < |recipients| ==> EmailPattern(recipients[i].email)
    ensures |recipients| < minimum ==> v.error == Some(TooFewMessage(minimum))
    ensures |recipients| >= minimum && !v.isValid ==>
      exists j :: 0 <= j < |recipients| && v.error == Some(InvalidAddressMessage(recipients[j].email)) && !EmailPattern(recipients[j].email) && (forall i :: 0 <= i < j ==> EmailPattern(recipients[i].email))
  {
    if |recipients| < minimum {
      return Verdict(false, Some(TooFewMessage(minimum)));
    }
    var emails := seq(|recipients|, i requires 0 <= i < |recipients| => recipients[i].email);
    var found := FindInvalidEmail(emails);
    if found.Some? {
      var j := found.value;
      assert forall i :: 0 <= i < j ==> emails[i] == recipients[i].email;
      return Verdict(false, Some(InvalidAddressMessage(recipients[j].email)));
    }
    assert forall i :: 0 <= i < |recipients| ==> emails[i] == recipients[i].email;
    return Verdict(true, None);
  }
}
