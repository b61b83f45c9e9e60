/** The contact form: required fields, maximum lengths, an optional phone
    and the e-mail pattern, checked in that order; the message is stored and
    mailed to the shop, and a failed store does not stop the mail. */
module Contact {
  import opened Common
  import Email

  const MAX_NAME: nat := 100
  const MAX_EMAIL: nat := 254
  const MAX_SUBJECT: nat := 200
  const MAX_MESSAGE: nat := 5000
  const MAX_PHONE: nat := 20

  const MISSING_FIELDS: string := "Faltan campos requeridos"
  const TOO_LONG: string := "Uno o más campos exceden la longitud máxima permitida"
  const INVALID_PHONE: string := "Teléfono inválido"
  const INVALID_EMAIL: string := "Email inválido"

  /** The class [^\s@]. */
  predicate Plain(c: char) {
    !IsSpace(c) && c != '@'
  }

  predicate AllPlain(s: string) {
    forall i :: 0 <= i < |s| ==> Plain(s[i])
  }

  /** The language of ^[^\s@]+@[^\s@]+\.[^\s@]+$: a non-empty local part, '@',
      then a non-empty run, a dot and a non-empty run, none of which holds a
      space or an '@'. */
  ghost predicate EmailPattern(s: string) {
    exists k, j :: 0 < k && k + 1 < j < |s| - 1 && s[k] == '@' && s[j] == '.' &&
                   AllPlain(s[..k]) && AllPlain(s[k + 1..j]) && AllPlain(s[j + 1..])
  }

  /** A dot with something on both sides. */
  predicate InnerDot(d: string) {
    exists j :: 0 < j < |d| - 1 && d[j] == '.'
  }

  /** The pattern as a scan: exactly one '@', not first, no spaces, and a dot
      strictly inside the part after it. */
  function EmailValid(s: string): (r: bool)
    ensures r <==> EmailPattern(s)
  {
    match IndexOf(s, '@')
    case None => false
    case Some(k) =>
      EmailScanSound(s, k);
      EmailScanComplete(s, k);
      0 < k && AllPlain(s[..k]) && AllPlain(s[k + 1..]) && InnerDot(s[k + 1..])
  }

  lemma EmailScanSound(s: string, k: nat)
    requires k < |s| && s[k] == '@'
    ensures (0 < k && AllPlain(s[..k]) && AllPlain(s[k + 1..]) && InnerDot(s[k + 1..])) ==> EmailPattern(s)
  {
    var d := s[k + 1..];
    if 0 < k && AllPlain(s[..k]) && AllPlain(d) && InnerDot(d) {
      var j' :| 0 < j' < |d| - 1 && d[j'] == '.';
      var j := k + 1 + j';
      assert s[k + 1..j] == d[..j'];
      assert s[j + 1..] == d[j' + 1..];
      assert s[j] == '.';
      assert AllPlain(s[k + 1..j]);
    }
  }

  /** Plain runs either side of a dot make a plain run. */
  lemma PlainAroundDot(s: string, k: nat, j: nat)
    requires k < j < |s| && s[j] == '.'
    requires AllPlain(s[k + 1..j]) && AllPlain(s[j + 1..])
    ensures AllPlain(s[k + 1..])
  {
    var d := s[k + 1..];
    forall i | 0 <= i < |d|
      ensures Plain(d[i])
    {
      var p := k + 1 + i;
      if p < j {
        assert d[i] == s[k + 1..j][i];
      } else if p > j {
        assert d[i] == s[j + 1..][p - j - 1];
      }
    }
  }

  /** An '@' after which the local part is plain is the first '@'. */
  lemma FirstAt(s: string, k: nat, k': nat)
    requires IndexOf(s, '@') == Some(k) && k' < |s| && s[k'] == '@' && AllPlain(s[..k'])
    ensures k' == k
  {
    forall i | 0 <= i < k'
      ensures s[i] != '@'
    {
      assert s[..k'][i] == s[i];
    }
  }

  lemma EmailScanComplete(s: string, k: nat)
    requires IndexOf(s, '@') == Some(k)
    ensures EmailPattern(s) ==> 0 < k && AllPlain(s[..k]) && AllPlain(s[k + 1..]) && InnerDot(s[k + 1..])
  {
    if EmailPattern(s) {
      var k', j :| 0 < k' && k' + 1 < j < |s| - 1 && s[k'] == '@' && s[j] == '.' &&
                   AllPlain(s[..k']) && AllPlain(s[k' + 1..j]) && AllPlain(s[j + 1..]);
      ScanOfMatch(s, k, k', j);
    }
  }

  /** A match of the pattern, with its '@' at `k'` and its dot at `j`, is
      one the scan accepts. */
  lemma ScanOfMatch(s: string, k: nat, k': nat, j: nat)
    requires IndexOf(s, '@') == Some(k)
    requires 0 < k' && k' + 1 < j < |s| - 1 && s[k'] == '@' && s[j] == '.'
    requires AllPlain(s[..k']) && AllPlain(s[k' + 1..j]) && AllPlain(s[j + 1..])
    ensures 0 < k && AllPlain(s[..k]) && AllPlain(s[k + 1..]) && InnerDot(s[k + 1..])
  {
    FirstAt(s, k, k');
    assert k' == k;
    PlainAroundDot(s, k, j);
    var d := s[k + 1..];
    assert 0 < j - k - 1 < |d| - 1 && d[j - k - 1] == '.';
  }

  /** The addresses the repository's tests list as accepted and rejected. */
  lemma EmailAccepted()
    ensures EmailValid("a@b.cc")
  {
    IndexOfAt("a@b.cc", '@', 1);
    assert "a@b.cc"[2..] == "b.cc" && "b.cc"[1] == '.';
  }

  lemma EmailWithoutDot()
    ensures !EmailValid("user@domain")
  {
    IndexOfAt("user@domain", '@', 4);
    var d := "user@domain"[5..];
    assert d == "domain";
    assert !InnerDot(d) by {
      assert forall j :: 0 <= j < |d| ==> d[j] != '.';
    }
    DomainRejected("user@domain", 4);
  }

  /** Without a dot inside the part after the first '@' the address is
      rejected. */
  lemma DomainRejected(s: string, k: nat)
    requires IndexOf(s, '@') == Some(k) && !InnerDot(s[k + 1..])
    ensures !EmailValid(s)
  {
  }

  lemma EmailWithoutLocalPart()
    ensures !EmailValid("@domain.com")
  {
    IndexOfAt("@domain.com", '@', 0);
  }

  lemma EmailDotFirst()
    ensures !EmailValid("user@.com")
  {
    IndexOfAt("user@.com", '@', 4);
    var d := "user@.com"[5..];
    assert d == ".com";
    assert !InnerDot(d) by {
      assert forall j :: 0 < j < |d| ==> d[j] != '.';
    }
    DomainRejected("user@.com", 4);
  }

  lemma EmailWithSpace()
    ensures !EmailValid("user @example.com")
  {
    IndexOfAt("user @example.com", '@', 5);
    assert "user @example.com"[..5][4] == ' ';
  }

  /** The row the handler inserts: the five fields as sent, with a falsy
      phone stored as null. */
  datatype StoredMessage = StoredMessage(name: Value, email: Value, phone: Option<string>, subject: Value,
                                         message: Value)

  datatype Reply = Reply(status: int, error: string, stored: Option<StoredMessage>, mail: Option<Email.Mail>)

  /** `.length > max` on a field: a string's or an array's length; any
      other value has no length and is never too long. */
  predicate Longer(v: Value, max: nat) {
    JsLength(v).Some? && JsLength(v).value > max
  }

  /** `phone && (typeof phone !== 'string' || phone.length > 20)`. */
  predicate BadPhone(phone: Value) {
    Truthy(phone) && (!phone.Text? || |phone.s| > MAX_PHONE)
  }

  /** The checks before anything is written, in the handler's order; None
      when all pass. The pattern is tested on the e-mail's string form. */
  function Check(name: Value, email: Value, phone: Value, subject: Value, message: Value): (r: Option<string>)
    ensures !(Truthy(name) && Truthy(email) && Truthy(subject) && Truthy(message)) ==> r == Some(MISSING_FIELDS)
    ensures (Truthy(name) && Truthy(email) && Truthy(subject) && Truthy(message) &&
             (Longer(name, MAX_NAME) || Longer(email, MAX_EMAIL) || Longer(subject, MAX_SUBJECT) ||
              Longer(message, MAX_MESSAGE))) ==> r == Some(TOO_LONG)
    ensures r.None? ==> Truthy(name) && Truthy(email) && Truthy(subject) && Truthy(message) &&
                        !Longer(name, MAX_NAME) && !Longer(email, MAX_EMAIL) &&
                        !Longer(subject, MAX_SUBJECT) && !Longer(message, MAX_MESSAGE) &&
                        !BadPhone(phone) && EmailPattern(JsString(email))
    ensures r.None? || r == Some(MISSING_FIELDS) || r == Some(TOO_LONG) || r == Some(INVALID_PHONE) ||
            r == Some(INVALID_EMAIL)
    ensures r == Some(INVALID_PHONE) ==> BadPhone(phone)
    ensures r == Some(INVALID_EMAIL) ==> !BadPhone(phone) && !EmailPattern(JsString(email))
  {
    if !(Truthy(name) && Truthy(email) && Truthy(subject) && Truthy(message)) then Some(MISSING_FIELDS)
    else if Longer(name, MAX_NAME) || Longer(email, MAX_EMAIL) || Longer(subject, MAX_SUBJECT) ||
            Longer(message, MAX_MESSAGE) then Some(TOO_LONG)
    else if BadPhone(phone) then Some(INVALID_PHONE)
    else if !EmailValid(JsString(email)) then Some(INVALID_EMAIL)
    else None
  }

  const SEND_FAILED: string := "Error al enviar el mensaje"

  /** `phone || null` as the row stores it. */
  function StoredPhone(phone: Value): (r: Option<string>)
    ensures r.Some? <==> phone.Text? && phone.s != ""
    ensures r.Some? ==> r.value == phone.s
  {
    if phone.Text? && phone.s != "" then Some(phone.s) else None
  }

  /** `POST`. `bodyOk` is false when the body is not JSON; `dbOk` is the
      insert's outcome. Once the checks pass the row is inserted (a failed
      insert is only logged), and then the mail escapes the four text
      fields, which throws (a 500, the row already written) unless all
      four are strings. */
  function Submit(bodyOk: bool, name: Value, email: Value, phone: Value, subject: Value, message: Value, dbOk: bool)
      : (r: Reply)
    ensures !bodyOk ==> r == Reply(500, SEND_FAILED, None, None)
    ensures r.status == 200 ==> r.error == "" && r.mail.Some?
    ensures bodyOk && Check(name, email, phone, subject, message).Some? ==>
              r.status == 400 && r.error == Check(name, email, phone, subject, message).value &&
              r.stored.None? && r.mail.None?
    ensures bodyOk && Check(name, email, phone, subject, message).None? ==>
              r.stored == (if dbOk then Some(StoredMessage(name, email, StoredPhone(phone), subject, message)) else None)
    ensures (bodyOk && Check(name, email, phone, subject, message).None? && name.Text? && email.Text? &&
             subject.Text? && message.Text?) ==>
              r.status == 200 && r.mail.Some? &&
              r.mail.value == Email.ContactMail(Email.ContactData(name.s, email.s, subject.s, message.s,
                                                                  if phone.Text? then Some(phone.s) else None))
    ensures (bodyOk && Check(name, email, phone, subject, message).None? &&
             !(name.Text? && email.Text? && subject.Text? && message.Text?)) ==>
              r.status == 500 && r.error == SEND_FAILED && r.mail.None?
  {
    if !bodyOk then Reply(500, SEND_FAILED, None, None)
    else match Check(name, email, phone, subject, message)
    case Some(e) => Reply(400, e, None, None)
    case None =>
      var row := if dbOk then Some(StoredMessage(name, email, StoredPhone(phone), subject, message)) else None;
      if name.Text? && email.Text? && subject.Text? && message.Text? then
        var d := Email.ContactData(name.s, email.s, subject.s, message.s, if phone.Text? then Some(phone.s) else None);
        Reply(200, "", row, Some(Email.ContactMail(d)))
      else Reply(500, SEND_FAILED, row, None)
  }
}
