/** The SMS notification stub of the booking repository
    (services/bookingService.ts, `sendSMSNotification`): the fixed message
    template, JavaScript's `String.prototype.trim` applied to it, and a reader
    that recovers the booking's fields from the message text. */
module Notification {
  import opened BookingTypes

  /** The operator number every notification is addressed to. */
  const SmsRecipient := "+919306155980"

  const Header := "New Appointment Booked:"

  /** The characters JavaScript's `trim` removes: WhiteSpace (TAB, VT, FF,
      ZWNBSP and every space separator) and LineTerminator (LF, CR, LS, PS). */
  predicate IsJsWhitespace(c: char)
  {
    || c == '\t' || c == '\n' || c == '\U{000B}' || c == '\U{000C}' || c == '\r'
    || c == ' ' || c == '\U{00A0}' || c == '\U{1680}'
    || ('\U{2000}' <= c <= '\U{200A}')
    || c == '\U{2028}' || c == '\U{2029}' || c == '\U{202F}' || c == '\U{205F}'
    || c == '\U{3000}' || c == '\U{FEFF}'
  }

  ghost predicate AllWhitespace(s: string)
  {
    forall i :: 0 <= i < |s| ==> IsJsWhitespace(s[i])
  }

  function TrimStart(s: string): (r: string)
    ensures |r| <= |s| && r == s[|s| - |r|..]
    ensures AllWhitespace(s[..|s| - |r|])
    ensures r == [] || !IsJsWhitespace(r[0])
  {
    if |s| > 0 && IsJsWhitespace(s[0]) then
      var r := TrimStart(s[1..]);
      assert s[..|s| - |r|] == [s[0]] + s[1..][..|s| - 1 - |r|];
      r
    else s
  }

  function TrimEnd(s: string): (r: string)
    ensures |r| <= |s| && r == s[..|r|]
    ensures AllWhitespace(s[|r|..])
    ensures r == [] || !IsJsWhitespace(r[|r| - 1])
  {
    if |s| > 0 && IsJsWhitespace(s[|s| - 1]) then
      var r := TrimEnd(s[..|s| - 1]);
      assert s[|r|..] == s[..|s| - 1][|r|..] + [s[|s| - 1]];
      r
    else s
  }

  /** `String.prototype.trim`: `TrimStart` followed by `TrimEnd`; what is
      left neither starts nor ends with whitespace. */
  function Trim(s: string): (r: string)
    ensures |r| <= |s|
    ensures r != [] ==> !IsJsWhitespace(r[0]) && !IsJsWhitespace(r[|r| - 1])
  {
    var u := TrimStart(s);
    var r := TrimEnd(u);
    assert r != [] ==> r[0] == u[0];
    r
  }

  /** What `trim()` keeps is one slice of the input, starting at `k`, with
      nothing but whitespace before and after it. */
  lemma TrimIsSlice(s: string) returns (k: int)
    ensures 0 <= k && k + |Trim(s)| <= |s| && Trim(s) == s[k..k + |Trim(s)|]
    ensures AllWhitespace(s[..k]) && AllWhitespace(s[k + |Trim(s)|..])
  {
    var u := TrimStart(s);
    var r := TrimEnd(u);
    assert Trim(s) == r;
    k := |s| - |u|;
    assert u == s[k..] && AllWhitespace(s[..k]);
    assert r == u[..|r|] && AllWhitespace(u[|r|..]);
    SliceParts(s, k, u, r);
  }

  lemma SliceParts(s: string, k: int, u: string, r: string)
    requires 0 <= k <= |s| && u == s[k..]
    requires |r| <= |u| && r == u[..|r|] && AllWhitespace(u[|r|..])
    ensures k + |r| <= |s| && r == s[k..k + |r|] && AllWhitespace(s[k + |r|..])
  {
    assert s[k..][..|r|] == s[k..k + |r|];
    assert s[k..][|r|..] == s[k + |r|..];
  }

  /** The message body with the template literal's surrounding line breaks
      and indentation left out. */
  function Template(b: Booking): string
  {
    Header + "\nName: " + b.name + "\nPhone: " + b.phone + "\nService: " + b.service
      + "\nDate: " + b.date + "\nTime: " + b.time
  }


  /** A time label that `trim()` leaves alone at the end of the message. */
  predicate EndsClean(t: string)
  {
    |t| > 0 && !IsJsWhitespace(t[|t| - 1])
  }

  /** Appending whitespace never changes what `TrimEnd` keeps. */
  lemma {:induction false} TrimEndIgnoresTrailingWhitespace(s: string, w: string)
    requires AllWhitespace(w)
    ensures TrimEnd(s + w) == TrimEnd(s)
    decreases |w|
  {
    if |w| > 0 {
      var w' := w[..|w| - 1];
      assert (s + w)[..|s + w| - 1] == s + w';
      TrimEndIgnoresTrailingWhitespace(s, w');
    } else {
      assert s + w == s;
    }
  }

  /** The text `sendSMSNotification` logs: the template literal, which opens
      with a line break and closes with a line break and four spaces, passed
      through `trim()`. It is the filled template with trailing whitespace
      removed, and exactly the filled template when the time label ends in a
      visible character (every label of the booking form does). */
  function NotificationMessage(b: Booking): (m: string)
    ensures m == TrimEnd(Template(b))
    ensures EndsClean(b.time) ==> m == Template(b)
  {
    assert Template(b)[0] == Header[0];
    TrimLiteral(Template(b), "\n    ");
    EndsCleanAfter(Header + "\nName: " + b.name + "\nPhone: " + b.phone + "\nService: "
      + b.service + "\nDate: " + b.date + "\nTime: ", b.time);
    Trim("\n" + Template(b) + "\n    ")
  }

  /** A text that a line feed precedes and a whitespace tail `w` follows
      trims to the text with its own trailing whitespace removed, when it
      starts with a visible character. */
  lemma TrimLiteral(t: string, w: string)
    requires |t| > 0 && !IsJsWhitespace(t[0])
    requires AllWhitespace(w)
    ensures Trim("\n" + t + w) == TrimEnd(t)
  {
    var x := t + w;
    assert "\n" + t + w == ['\n'] + x;
    TrimStartSkipsOne('\n', x);
    assert x[0] == t[0];
    TrimStartKeeps(x);
    TrimEndIgnoresTrailingWhitespace(t, w);
  }

  lemma TrimStartSkipsOne(c: char, x: string)
    requires IsJsWhitespace(c)
    ensures TrimStart([c] + x) == TrimStart(x)
  {
    assert ([c] + x)[1..] == x;
  }

  lemma TrimStartKeeps(x: string)
    requires |x| > 0 && !IsJsWhitespace(x[0])
    ensures TrimStart(x) == x
  {
  }

  /** A text that ends in a clean label keeps all of it under `TrimEnd`. */
  lemma EndsCleanAfter(p: string, x: string)
    ensures EndsClean(x) ==> TrimEnd(p + x) == p + x
  {
    if EndsClean(x) {
      assert (p + x)[|p + x| - 1] == x[|x| - 1];
    }
  }

  /** The message split at line feeds, as an operator reading it would. */
  function Lines(s: string): (r: seq<string>)
    ensures |r| >= 1
    decreases |s|
  {
    if |s| == 0 then [""]
    else if s[0] == '\n' then [""] + Lines(s[1..])
    else
      var rest := Lines(s[1..]);
      [[s[0]] + rest[0]] + rest[1..]
  }

  lemma {:induction false} LinesOfOneLine(a: string)
    requires '\n' !in a
    ensures Lines(a) == [a]
    decreases |a|
  {
    if |a| > 0 {
      LinesOfOneLine(a[1..]);
      assert [a[0]] + a[1..] == a;
    }
  }

  lemma {:induction false} LinesOfJoin(a: string, b: string)
    requires '\n' !in a
    ensures Lines(a + "\n" + b) == [a] + Lines(b)
    decreases |a|
  {
    if |a| == 0 {
      assert a + "\n" + b == "\n" + b;
      assert ("\n" + b)[1..] == b;
    } else {
      assert (a + "\n" + b)[1..] == a[1..] + "\n" + b;
      LinesOfJoin(a[1..], b);
      assert [a[0]] + a[1..] == a;
    }
  }

  predicate HasPrefix(s: string, p: string)
  {
    |p| <= |s| && s[..|p|] == p
  }

  /** Reads the five booking fields back out of the lines of a message. */
  function ParseLines(ls: seq<string>): Option<Candidate>
  {
    if |ls| == 6 && ls[0] == Header
       && HasPrefix(ls[1], "Name: ") && HasPrefix(ls[2], "Phone: ")
       && HasPrefix(ls[3], "Service: ") && HasPrefix(ls[4], "Date: ")
       && HasPrefix(ls[5], "Time: ")
    then Some(Candidate(ls[1][6..], ls[2][7..], ls[3][9..], ls[4][6..], ls[5][6..]))
    else None
  }

  /** Reads the five booking fields back out of a notification message. */
  function ParseNotification(m: string): Option<Candidate>
  {
    ParseLines(Lines(m))
  }

  /** The six lines of the message template. */
  function TemplateLines(b: Booking): seq<string>
  {
    [Header, "Name: " + b.name, "Phone: " + b.phone, "Service: " + b.service,
     "Date: " + b.date, "Time: " + b.time]
  }

  /** Lines joined back together with line feeds. */
  function JoinLines(ls: seq<string>): string
    requires |ls| >= 1
  {
    if |ls| == 1 then ls[0] else ls[0] + "\n" + JoinLines(ls[1..])
  }

  lemma {:induction false} LinesOfJoinLines(ls: seq<string>)
    requires |ls| >= 1
    requires forall k :: 0 <= k < |ls| ==> '\n' !in ls[k]
    ensures Lines(JoinLines(ls)) == ls
  {
    if |ls| == 1 {
      LinesOfOneLine(ls[0]);
    } else {
      LinesOfJoinLines(ls[1..]);
      LinesOfJoin(ls[0], JoinLines(ls[1..]));
    }
  }

  lemma JoinLinesCons(a: string, ls: seq<string>)
    requires |ls| >= 1
    ensures JoinLines([a] + ls) == a + "\n" + JoinLines(ls)
  {
    assert ([a] + ls)[1..] == ls;
  }

  lemma JoinSixLines(a0: string, a1: string, a2: string, a3: string, a4: string, a5: string)
    ensures JoinLines([a0, a1, a2, a3, a4, a5])
         == a0 + "\n" + (a1 + "\n" + (a2 + "\n" + (a3 + "\n" + (a4 + "\n" + a5))))
  {
    JoinLinesCons(a4, [a5]);
    JoinLinesCons(a3, [a4, a5]);
    JoinLinesCons(a2, [a3, a4, a5]);
    JoinLinesCons(a1, [a2, a3, a4, a5]);
    JoinLinesCons(a0, [a1, a2, a3, a4, a5]);
  }

  lemma RegroupTemplate(h: string, n: string, p: string, s: string, d: string, t: string)
    ensures h + "\nName: " + n + "\nPhone: " + p + "\nService: " + s + "\nDate: " + d + "\nTime: " + t
         == h + "\n" + (("Name: " + n) + "\n" + (("Phone: " + p) + "\n" + (("Service: " + s) + "\n"
              + (("Date: " + d) + "\n" + ("Time: " + t)))))
  {
  }

  /** The template is its six lines joined with line feeds. */
  lemma TemplateIsJoin(b: Booking)
    ensures Template(b) == JoinLines(TemplateLines(b))
  {
    JoinSixLines(Header, "Name: " + b.name, "Phone: " + b.phone, "Service: " + b.service,
      "Date: " + b.date, "Time: " + b.time);
    RegroupTemplate(Header, b.name, b.phone, b.service, b.date, b.time);
  }

  lemma PrefixThenRest(p: string, x: string)
    ensures HasPrefix(p + x, p) && (p + x)[|p|..] == x
  {
    assert (p + x)[..|p|] == p;
  }

  lemma TemplateLinesAreLines(b: Booking)
    requires '\n' !in b.name && '\n' !in b.phone && '\n' !in b.service
    requires '\n' !in b.date && '\n' !in b.time
    ensures forall k :: 0 <= k < |TemplateLines(b)| ==> '\n' !in TemplateLines(b)[k]
  {
  }

  lemma ParseTemplateLines(b: Booking)
    ensures ParseLines(TemplateLines(b)) == Some(Candidate(b.name, b.phone, b.service, b.date, b.time))
  {
    PrefixThenRest("Name: ", b.name);
    PrefixThenRest("Phone: ", b.phone);
    PrefixThenRest("Service: ", b.service);
    PrefixThenRest("Date: ", b.date);
    PrefixThenRest("Time: ", b.time);
  }

  /** The notification carries every field of the booking: when no field holds
      a line feed and the time label ends in a visible character, the fields
      read back from the message are exactly the booking's. */
  lemma NotificationRoundTrip(b: Booking)
    requires '\n' !in b.name && '\n' !in b.phone && '\n' !in b.service
    requires '\n' !in b.date && '\n' !in b.time
    requires EndsClean(b.time)
    ensures ParseNotification(NotificationMessage(b))
         == Some(Candidate(b.name, b.phone, b.service, b.date, b.time))
  {
    TemplateIsJoin(b);
    TemplateLinesAreLines(b);
    LinesOfJoinLines(TemplateLines(b));
    ParseTemplateLines(b);
  }

  /** `sendSMSNotification`: logs the recipient and the message (the log lines
      are returned here) and resolves to `true`. */
  method SendSmsNotification(b: Booking) returns (recipient: string, message: string, sent: bool)
    ensures recipient == SmsRecipient
    ensures message == TrimEnd(Template(b))
    ensures sent
  {
    recipient := SmsRecipient;
    message := NotificationMessage(b);
    sent := true;
  }
}
