/** Commit preparation: the `type(scope): description` header of the
    Conventional Commits 1.0.0 specification (items 1, 4 and 5 of its
    "Specification" list), built from four form fields, and the preview
    that shows it. The form fields are plain inputs; the only constrained
    one is the type, which the page changes through its seven buttons. */
module CommitHeader {
  import opened Common

  /** The ids of the seven type buttons. */
  const CommitTypes: seq<string> := ["feat", "fix", "docs", "style", "refactor", "test", "chore"]

  /** `fullCommitMessage`: the type, the scope in parentheses unless the
      scope is empty, a colon and a space, and the message. */
  function Header(commitType: string, scope: string, message: string): (h: string)
    ensures |h| == |commitType| + |message| + 2 + (if scope == "" then 0 else |scope| + 2)
    ensures h[..|commitType|] == commitType
    ensures h[|h| - |message| - 2..] == ": " + message
  {
    commitType + (if scope != "" then "(" + scope + ")" else "") + ": " + message
  }

  /** The three parts a header is made of. */
  datatype HeaderParts = HeaderParts(commitType: string, scope: string, description: string)

  /** A type the header can be split at unambiguously: non-empty, and free
      of the characters that end it. */
  predicate WellFormedType(t: string)
  {
    t != "" && forall k :: 0 <= k < |t| ==> t[k] != '(' && t[k] != ':'
  }

  /** A scope that the closing parenthesis ends unambiguously. */
  predicate WellFormedScope(s: string)
  {
    forall k :: 0 <= k < |s| ==> s[k] != ')'
  }

  function EndsType(): char -> bool
  {
    c => c == '(' || c == ':'
  }

  function EndsScope(): char -> bool
  {
    c => c == ')'
  }

  /** Reads a header back into its parts: the type runs up to the first
      `(` or `:`; a parenthesised scope must be non-empty; the description
      follows ": ". Anything else is not a header. */
  function ParseHeader(h: string): Option<HeaderParts>
  {
    match FirstIndex(h, EndsType())
    case None => None
    case Some(i) =>
      if i == 0 then None
      else if h[i] == ':' then ParseDescription(h[..i], "", h[i + 1..])
      else ParseScope(h[..i], h[i + 1..])
  }

  /** After the type: the scope up to the first `)`, then the rest. */
  function ParseScope(t: string, rest: string): Option<HeaderParts>
  {
    match FirstIndex(rest, EndsScope())
    case None => None
    case Some(j) =>
      if j == 0 || j + 1 >= |rest| || rest[j + 1] != ':' then None
      else ParseDescription(t, rest[..j], rest[j + 2..])
  }

  /** After the colon: a space, then the description. */
  function ParseDescription(t: string, scope: string, rest: string): Option<HeaderParts>
  {
    if rest != [] && rest[0] == ' ' then Some(HeaderParts(t, scope, rest[1..])) else None
  }

  /** A well-formed type followed by one of the characters that end it is
      read up to that character. */
  lemma TypeEndsAt(h: string, t: string, c: char, rest: string)
    requires WellFormedType(t) && EndsType()(c)
    requires h == t + [c] + rest
    ensures FirstIndex(h, EndsType()) == Some(|t|)
    ensures h[..|t|] == t && h[|t|] == c && h[|t| + 1..] == rest
  {
    assert h[|t|] == c && EndsType()(h[|t|]);
    assert forall k :: 0 <= k < |t| ==> h[k] == t[k] && !EndsType()(h[k]);
    var r := FirstIndex(h, EndsType());
    assert r.Some?;
    assert !(r.value < |t|) && !(r.value > |t|);
  }

  /** A well-formed scope followed by `)` is read up to it. */
  lemma ScopeEndsAt(rest: string, scope: string, tail: string)
    requires WellFormedScope(scope)
    requires rest == scope + [')'] + tail
    ensures FirstIndex(rest, EndsScope()) == Some(|scope|)
    ensures rest[..|scope|] == scope && rest[|scope| + 1..] == tail
  {
    assert rest[|scope|] == ')' && EndsScope()(rest[|scope|]);
    assert forall k :: 0 <= k < |scope| ==> rest[k] == scope[k] && !EndsScope()(rest[k]);
    var r := FirstIndex(rest, EndsScope());
    assert r.Some?;
    assert !(r.value < |scope|) && !(r.value > |scope|);
  }

  /** Every header the page can build reads back as the parts it was built
      from. */
  lemma HeaderRoundTrip(t: string, scope: string, message: string)
    requires WellFormedType(t) && WellFormedScope(scope)
    ensures ParseHeader(Header(t, scope, message)) == Some(HeaderParts(t, scope, message))
  {
    if scope == "" {
      UnscopedRoundTrip(t, message);
    } else {
      ScopedRoundTrip(t, scope, message);
    }
  }

  lemma UnscopedRoundTrip(t: string, message: string)
    requires WellFormedType(t)
    ensures ParseHeader(Header(t, "", message)) == Some(HeaderParts(t, "", message))
  {
    var h := Header(t, "", message);
    var rest := " " + message;
    assert h == t + [':'] + rest;
    TypeEndsAt(h, t, ':', rest);
    assert ParseHeader(h) == ParseDescription(t, "", rest);
    assert rest[1..] == message;
  }

  lemma ScopedRoundTrip(t: string, scope: string, message: string)
    requires WellFormedType(t) && WellFormedScope(scope) && scope != ""
    ensures ParseHeader(Header(t, scope, message)) == Some(HeaderParts(t, scope, message))
  {
    var h := Header(t, scope, message);
    var rest := scope + [')'] + (": " + message);
    ScopedHeaderShape(t, scope, message);
    TypeEndsAt(h, t, '(', rest);
    assert ParseHeader(h) == ParseScope(t, rest);
    ParseScopeOf(t, scope, message);
  }

  lemma ScopedHeaderShape(t: string, scope: string, message: string)
    requires scope != ""
    ensures Header(t, scope, message) == t + ['('] + (scope + [')'] + (": " + message))
  {
  }

  lemma ParseScopeOf(t: string, scope: string, message: string)
    requires WellFormedScope(scope) && scope != ""
    ensures ParseScope(t, scope + [')'] + (": " + message)) == Some(HeaderParts(t, scope, message))
  {
    var tail := ": " + message;
    var rest := scope + [')'] + tail;
    ScopeEndsAt(rest, scope, tail);
    assert rest[|scope| + 1] == ':';
    assert rest[|scope| + 2..] == " " + message;
    assert (" " + message)[1..] == message;
  }

  /** Conversely, anything that reads as a header is exactly the header
      built from its parts. */
  lemma ParsedHeaderRebuilds(h: string)
    requires ParseHeader(h).Some?
    ensures var p := ParseHeader(h).value;
      && WellFormedType(p.commitType) && WellFormedScope(p.scope)
      && Header(p.commitType, p.scope, p.description) == h
  {
    var i := FirstIndex(h, EndsType()).value;
    var t, rest := h[..i], h[i + 1..];
    assert WellFormedType(t) by {
      assert forall k :: 0 <= k < |t| ==> t[k] == h[k] && !EndsType()(h[k]);
    }
    assert h == t + [h[i]] + rest;
    if h[i] == ':' {
      RebuildUnscoped(h, t, rest);
    } else {
      var j := FirstIndex(rest, EndsScope()).value;
      RebuildScoped(h, t, rest, j);
    }
  }

  lemma RebuildUnscoped(h: string, t: string, rest: string)
    requires h == t + ":" + rest
    requires ParseDescription(t, "", rest).Some?
    ensures ParseDescription(t, "", rest).value == HeaderParts(t, "", rest[1..])
    ensures Header(t, "", rest[1..]) == h
  {
    assert rest == " " + rest[1..];
  }

  lemma RebuildScoped(h: string, t: string, rest: string, j: nat)
    requires h == t + "(" + rest
    requires FirstIndex(rest, EndsScope()) == Some(j)
    requires ParseScope(t, rest).Some?
    ensures ParseScope(t, rest).value == HeaderParts(t, rest[..j], rest[j + 3..])
    ensures WellFormedScope(rest[..j])
    ensures Header(t, rest[..j], rest[j + 3..]) == h
  {
    var scope := rest[..j];
    assert WellFormedScope(scope) by {
      assert forall k :: 0 <= k < |scope| ==> scope[k] == rest[k] && !EndsScope()(rest[k]);
    }
    assert rest == scope + ")" + ":" + " " + rest[j + 3..];
  }

  /** Every type button's id can head a header. */
  lemma CommitTypesWellFormed()
    ensures forall t :: t in CommitTypes ==> WellFormedType(t)
  {
  }

  /** Without a scope the header adds no parentheses of its own. */
  lemma NoScopeNoParentheses(t: string, message: string)
    ensures Header(t, "", message) == t + ": " + message
    ensures forall k :: 0 <= k < |Header(t, "", message)| ==>
      (Header(t, "", message)[k] in "()" ==> (k < |t| && t[k] in "()") || (k >= |t| + 2 && message[k - |t| - 2] in "()"))
  {
  }

  // ----- the form -----

  /** The four input-bound fields of the page. */
  datatype CommitForm = CommitForm(
    commitType: string,
    commitScope: string,
    commitMessage: string,
    commitBody: string)

  /** The values the page starts with. */
  function InitialForm(): CommitForm
  {
    CommitForm("docs", "readme", "fix typo in dependencies word", "")
  }

  /** Which type button was clicked, as its position in the list. */
  type TypeButton = k: nat | k < 7

  /** What the user can do on the page. */
  datatype FormEvent =
    | TypeClicked(button: TypeButton)
    | ScopeEdited(scope: string)
    | MessageEdited(message: string)
    | BodyEdited(body: string)

  /** The setter each event calls; every setter changes one field. */
  function Apply(f: CommitForm, e: FormEvent): CommitForm
  {
    match e
    case TypeClicked(k) => f.(commitType := CommitTypes[k])
    case ScopeEdited(s) => f.(commitScope := s)
    case MessageEdited(m) => f.(commitMessage := m)
    case BodyEdited(b) => f.(commitBody := b)
  }

  function ApplyAll(f: CommitForm, events: seq<FormEvent>): CommitForm
    decreases |events|
  {
    if events == [] then f else ApplyAll(Apply(f, events[0]), events[1..])
  }

  /** Whatever the user does, the type stays one of the seven button ids. */
  lemma {:induction false} TypeStaysListed(f: CommitForm, events: seq<FormEvent>)
    requires f.commitType in CommitTypes
    ensures ApplyAll(f, events).commitType in CommitTypes
    decreases |events|
  {
    if events != [] {
      TypeStaysListed(Apply(f, events[0]), events[1..]);
    }
  }

  /** The header shown in the preview. */
  function FullCommitMessage(f: CommitForm): string
  {
    Header(f.commitType, f.commitScope, f.commitMessage)
  }

  /** The preview block: the header, then the body line when the body is
      non-empty. */
  function Preview(f: CommitForm): (lines: seq<string>)
    ensures |lines| > 0 && lines[0] == FullCommitMessage(f)
    ensures |lines| == 2 <==> f.commitBody != ""
    ensures |lines| == 2 ==> lines[1] == f.commitBody
  {
    [FullCommitMessage(f)] + (if f.commitBody != "" then [f.commitBody] else [])
  }

  /** The page opens with a well-formed header. */
  lemma InitialHeaderParses()
    ensures ParseHeader(FullCommitMessage(InitialForm())) ==
      Some(HeaderParts("docs", "readme", "fix typo in dependencies word"))
  {
    HeaderRoundTrip("docs", "readme", "fix typo in dependencies word");
  }
}
