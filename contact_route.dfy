/**
 * The contact endpoint: a POST handler that checks its configuration and the
 * submitted fields in a fixed order, and only then hands one email to the
 * mail service. The mail service, the environment and the request body are
 * inputs here: the handler is a function of them.
 */
module ContactRoute {
  import opened Optional
  import opened JsStrings

  // ---------------------------------------------------------------------------
  // Inputs
  // ---------------------------------------------------------------------------

  /**
   * A field of the JSON body as JavaScript sees it: missing, a string, or
   * some other JSON value with its truthiness and its `String(...)` form.
   */
  datatype Value = Absent | Text(text: string) | Other(truthy: bool, shown: string)

  predicate Truthy(v: Value) {
    match v
    case Absent => false
    case Text(s) => s != ""
    case Other(t, _) => t
  }

  /** `String(v)`, as a regular expression test and a template literal convert their operand. */
  function Shown(v: Value): string {
    match v
    case Absent => "undefined"
    case Text(s) => s
    case Other(_, s) => s
  }

  /** The parsed body; `Unreadable` is a body whose parsing or destructuring throws. */
  datatype Request = Unreadable | Fields(name: Value, email: Value, subject: Value, message: Value)

  /** The two environment variables the handler reads. */
  datatype Env = Env(apiKey: Option<string>, contactEmail: Option<string>)

  /** A set and non-empty environment variable. */
  predicate IsSet(v: Option<string>) {
    v.Some? && v.value != ""
  }

  /** The mail service's answer: an id, an error object, or a thrown exception. */
  datatype SendResult = Delivered(id: Option<string>) | Rejected | Threw

  // ---------------------------------------------------------------------------
  // Outputs
  // ---------------------------------------------------------------------------

  /** The outgoing email, without its HTML and text bodies. */
  datatype Email = Email(from: string, to: seq<string>, replyTo: Value, subject: string)

  datatype Reply = Failure(error: string) | Done(success: bool, message: string, id: Option<string>)

  datatype Response = Response(status: int, reply: Reply)

  /** The response, and the email handed to the mail service if one was. */
  datatype Handled = Handled(response: Response, attempted: Option<Email>)

  const NotConfigured := "Email service is not configured. Please contact the administrator."
  const FieldsRequired := "All fields are required"
  const InvalidEmail := "Invalid email format"
  const SendFailed := "Failed to send email. Please try again later."
  const InternalError := "Internal server error. Please try again later."
  const SentMessage := "Email sent successfully"
  const Sender := "Portfolio Contact <onboarding@resend.dev>"
  const DefaultRecipient := "pateldhairya64@gmail.com"
  const SubjectPrefix := "Portfolio Contact: "

  // ---------------------------------------------------------------------------
  // The email pattern ^[^\s@]+@[^\s@]+\.[^\s@]+$
  // ---------------------------------------------------------------------------

  /** `[^\s@]`: neither whitespace nor `@`. */
  predicate PlainChar(c: char) {
    c != '@' && !IsWhitespace(c)
  }

  /** `[^\s@]+`. */
  predicate PlainRun(t: string) {
    t != [] && forall k :: 0 <= k < |t| ==> PlainChar(t[k])
  }

  /** The pattern read directly: plain run, `@`, plain run, `.`, plain run, and nothing else. */
  predicate MatchesPattern(s: string) {
    exists i, j :: 0 <= i < j < |s| && s[i] == '@' && s[j] == '.'
      && PlainRun(s[..i]) && PlainRun(s[i + 1..j]) && PlainRun(s[j + 1..])
  }

  /**
   * The validator: no whitespace, a first `@` that is not the first
   * character and no other `@`, and after it a `.` that is neither the first
   * nor the last character of the domain.
   */
  function EmailAccepted(s: string): (ok: bool)
    ensures ok ==> NoWhitespace(s) && '@' in s
  {
    var at := IndexOf(s, '@');
    if at == 0 || at == |s| then false
    else
      var domain := s[at + 1..];
      if domain == [] then false
      else
        var dot := 1 + IndexOf(domain[1..], '.');
        NoWhitespace(s) && Lacks(domain, '@') && dot < |domain| - 1
  }

  lemma IndexOfAtMost(t: string, c: char, k: nat)
    requires k < |t| && t[k] == c
    ensures IndexOf(t, c) <= k
  {
  }

  /** What the validator accepts is what the pattern matches. */
  lemma AcceptedMatches(s: string)
    requires EmailAccepted(s)
    ensures MatchesPattern(s)
  {
    var at := IndexOf(s, '@');
    var domain := s[at + 1..];
    var j := at + 2 + IndexOf(domain[1..], '.');
    assert s[j] == '.' by { assert s[j] == domain[1..][j - at - 2]; }
    var local, middle, tail := s[..at], s[at + 1..j], s[j + 1..];
    assert PlainRun(local) by {
      forall k | 0 <= k < |local| ensures PlainChar(local[k]) {
        assert local[k] == s[k];
      }
    }
    assert PlainRun(middle) by {
      forall k | 0 <= k < |middle| ensures PlainChar(middle[k]) {
        assert middle[k] == domain[k];
      }
    }
    assert PlainRun(tail) by {
      forall k | 0 <= k < |tail| ensures PlainChar(tail[k]) {
        assert tail[k] == domain[j - at + k];
      }
    }
  }

  /** In a match, every character other than the `@` and the chosen `.` is plain. */
  lemma MatchPlainElsewhere(s: string, i: nat, j: nat)
    requires 0 <= i < j < |s| && PlainRun(s[..i]) && PlainRun(s[i + 1..j]) && PlainRun(s[j + 1..])
    ensures forall k :: 0 <= k < |s| && k != i && k != j ==> PlainChar(s[k])
  {
    forall k | 0 <= k < |s| && k != i && k != j ensures PlainChar(s[k]) {
      if k < i {
        assert s[k] == s[..i][k];
      } else if k < j {
        assert s[k] == s[i + 1..j][k - i - 1];
      } else {
        assert s[k] == s[j + 1..][k - j - 1];
      }
    }
  }

  /** The `@` of a match is the first one, and the domain after it has no other. */
  lemma MatchAt(s: string, i: nat, j: nat)
    requires 0 <= i < j < |s| && s[i] == '@' && s[j] == '.'
    requires forall k :: 0 <= k < |s| && k != i && k != j ==> PlainChar(s[k])
    ensures IndexOf(s, '@') == i && Lacks(s[i + 1..], '@')
  {
    assert Lacks(s[..i], '@') by {
      forall k | 0 <= k < i ensures s[..i][k] != '@' {
        assert s[..i][k] == s[k];
      }
    }
    assert s == s[..i] + ['@'] + s[i + 1..];
    IndexOfFirst(s[..i], '@', s[i + 1..]);
    var domain := s[i + 1..];
    forall k | 0 <= k < |domain| ensures domain[k] != '@' {
      assert domain[k] == s[i + 1 + k];
    }
  }

  /** A match at a given `@` and `.` is accepted. */
  lemma MatchAtAccepted(s: string, i: nat, j: nat)
    requires 0 <= i < j < |s| && s[i] == '@' && s[j] == '.'
    requires PlainRun(s[..i]) && PlainRun(s[i + 1..j]) && PlainRun(s[j + 1..])
    ensures EmailAccepted(s)
  {
    assert i + 2 <= j < |s| - 1 by {
      assert |s[i + 1..j]| > 0 && |s[j + 1..]| > 0;
    }
    MatchPlainElsewhere(s, i, j);
    MatchAt(s, i, j);
    assert NoWhitespace(s) by {
      assert '@' !in WhitespaceChars && '.' !in WhitespaceChars;
    }
    var domain := s[i + 1..];
    var after := domain[1..];
    var p := j - i - 2;
    assert after[p] == '.' by { assert after[p] == s[j]; }
    IndexOfAtMost(after, '.', p);
  }

  /** Whatever the pattern matches, the validator accepts. */
  lemma MatchesAccepted(s: string)
    requires MatchesPattern(s)
    ensures EmailAccepted(s)
  {
    var i, j :| 0 <= i < j < |s| && s[i] == '@' && s[j] == '.'
      && PlainRun(s[..i]) && PlainRun(s[i + 1..j]) && PlainRun(s[j + 1..]);
    MatchAtAccepted(s, i, j);
  }

  /** The validator accepts exactly the strings the pattern matches. */
  lemma EmailAcceptedIffMatches(s: string)
    ensures EmailAccepted(s) <==> MatchesPattern(s)
  {
    if EmailAccepted(s) {
      AcceptedMatches(s);
    }
    if MatchesPattern(s) {
      MatchesAccepted(s);
    }
  }

  // ---------------------------------------------------------------------------
  // The handler
  // ---------------------------------------------------------------------------

  /** `CONTACT_EMAIL`, or the default address when it is unset or empty. */
  function Recipient(env: Env): (to: string)
    ensures IsSet(env.contactEmail) ==> to == env.contactEmail.value
    ensures !IsSet(env.contactEmail) ==> to == DefaultRecipient
  {
    if IsSet(env.contactEmail) then env.contactEmail.value else DefaultRecipient
  }

  /** Every field is truthy. */
  predicate AllPresent(name: Value, email: Value, subject: Value, message: Value) {
    Truthy(name) && Truthy(email) && Truthy(subject) && Truthy(message)
  }

  /** The request gets past every check and an email is handed to the mail service. */
  predicate Passes(env: Env, request: Request) {
    && IsSet(env.apiKey)
    && request.Fields?
    && AllPresent(request.name, request.email, request.subject, request.message)
    && EmailAccepted(Shown(request.email))
  }

  function Fail(status: int, error: string): Handled {
    Handled(Response(status, Failure(error)), None)
  }

  /**
   * The POST handler. The checks run in order: the API key, reading the
   * body, the four fields, the email's shape; then the email goes out and the
   * mail service's answer decides the response.
   */
  function Post(env: Env, request: Request, send: SendResult): (h: Handled)
    ensures h.response.status in {200, 400, 500}
    ensures h.attempted.Some? <==> Passes(env, request)
    ensures h.response.status == 200 <==> Passes(env, request) && send.Delivered?
    ensures h.response.status == 200 <==> h.response.reply.Done?
    ensures h.response.status == 400 <==>
      IsSet(env.apiKey) && request.Fields? && !Passes(env, request)
    ensures !IsSet(env.apiKey) ==> h == Fail(500, NotConfigured)
    ensures IsSet(env.apiKey) && request.Unreadable? ==> h == Fail(500, InternalError)
    ensures IsSet(env.apiKey) && request.Fields? ==>
      var r := request;
      && (!AllPresent(r.name, r.email, r.subject, r.message) ==> h == Fail(400, FieldsRequired))
      && (AllPresent(r.name, r.email, r.subject, r.message) && !EmailAccepted(Shown(r.email)) ==> h == Fail(400, InvalidEmail))
    ensures Passes(env, request) ==>
      && h.attempted == Some(Email(Sender, [Recipient(env)], request.email, SubjectPrefix + Shown(request.subject)))
      && (send.Delivered? ==> h.response.reply == Done(true, SentMessage, send.id))
      && (send.Rejected? ==> h.response == Response(500, Failure(SendFailed)))
      && (send.Threw? ==> h.response == Response(500, Failure(InternalError)))
  {
    if !IsSet(env.apiKey) then Fail(500, NotConfigured)
    else if request.Unreadable? then Fail(500, InternalError)
    else if !AllPresent(request.name, request.email, request.subject, request.message) then Fail(400, FieldsRequired)
    else if !EmailAccepted(Shown(request.email)) then Fail(400, InvalidEmail)
    else
      var email := Email(Sender, [Recipient(env)], request.email, SubjectPrefix + Shown(request.subject));
      match send
      case Rejected => Handled(Response(500, Failure(SendFailed)), Some(email))
      case Threw => Handled(Response(500, Failure(InternalError)), Some(email))
      case Delivered(id) => Handled(Response(200, Done(true, SentMessage, id)), Some(email))
  }

  /**
   * A missing field is reported before a malformed email: a request with an
   * empty name and the email "not an email" gets "All fields are required".
   */
  lemma MissingFieldBeforeEmail(env: Env, email: Value, subject: Value, message: Value, send: SendResult)
    requires IsSet(env.apiKey)
    ensures Post(env, Fields(Text(""), email, subject, message), send) == Fail(400, FieldsRequired)
  {
  }

  /** A string email is accepted exactly when the pattern matches it. */
  lemma TextEmailChecked(env: Env, name: Value, email: string, subject: Value, message: Value, send: SendResult)
    requires IsSet(env.apiKey) && AllPresent(name, Text(email), subject, message)
    ensures Post(env, Fields(name, Text(email), subject, message), send).attempted.Some? <==> MatchesPattern(email)
    ensures !MatchesPattern(email) ==> Post(env, Fields(name, Text(email), subject, message), send) == Fail(400, InvalidEmail)
  {
    EmailAcceptedIffMatches(email);
  }
}
