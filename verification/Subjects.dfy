/**
 The subject codec: the printer of pkg/eventbus, the two copies of parseSubject, and
 the relay's classify with the four filters it subscribes to.
 */
module Subjects {
  import opened Basics

  // ----- UUID text (section 4 of RFC 9562) -----

  newtype Nibble = n: int | 0 <= n < 16

  type Uuid = u: seq<Nibble> | |u| == 32 witness seq(32, _ => 0)

  /** google/uuid's Parse lies outside the repository; it is a parameter of the parsers. */
  type UuidParser = string -> Option<Uuid>

  const HEX: string := "0123456789abcdef"

  function Hex(u: seq<Nibble>): (r: string)
    ensures |r| == |u| && forall i :: 0 <= i < |u| ==> r[i] == HEX[u[i]]
  {
    seq(|u|, i requires 0 <= i < |u| => HEX[u[i]])
  }

  /** Dashes inserted after the 8th, 12th, 16th and 20th of 32 digits. */
  function Dashed(d: string): string
    requires |d| == 32
  {
    d[..8] + "-" + d[8..12] + "-" + d[12..16] + "-" + d[16..20] + "-" + d[20..]
  }

  /** The canonical 8-4-4-4-12 form, in lower case. */
  function PrintUuid(u: Uuid): string {
    Dashed(Hex(u))
  }

  function UnhexDigit(c: char): Option<Nibble> {
    if '0' <= c <= '9' then Some((c as int - '0' as int) as Nibble)
    else if 'a' <= c <= 'f' then Some((c as int - 'a' as int + 10) as Nibble)
    else if 'A' <= c <= 'F' then Some((c as int - 'A' as int + 10) as Nibble)
    else None
  }

  function Unhex(s: string): Option<seq<Nibble>> {
    if forall i :: 0 <= i < |s| ==> UnhexDigit(s[i]).Some? then
      Some(seq(|s|, i requires 0 <= i < |s| => UnhexDigit(s[i]).value))
    else
      None
  }

  /** The 36-character form, hexadecimal digits in either case. */
  function ParseDashedUuid(s: string): Option<Uuid> {
    if |s| == 36 && s[8] == '-' && s[13] == '-' && s[18] == '-' && s[23] == '-' then
      Unhex(s[..8] + s[9..13] + s[14..18] + s[19..23] + s[24..])
    else
      None
  }

  /** What the parsers need of the UUID library: it reads back what its own printer writes. */
  ghost predicate Inverts(lib: UuidParser) {
    forall u: Uuid :: lib(PrintUuid(u)) == Some(u)
  }

  lemma {:induction false} HexDigitsReadBack(n: Nibble)
    ensures HEX[n] != '.' && UnhexDigit(HEX[n]) == Some(n)
  {
  }

  /** The four dashes come out where they went in. */
  lemma {:induction false} DashedPieces(d: string)
    requires |d| == 32
    ensures |Dashed(d)| == 36
    ensures var s := Dashed(d);
      s[8] == s[13] == s[18] == s[23] == '-'
      && s[..8] + s[9..13] + s[14..18] + s[19..23] + s[24..] == d
  {
    var s := Dashed(d);
    assert s[..8] == d[..8];
    assert s[9..13] == d[8..12];
    assert s[14..18] == d[12..16];
    assert s[19..23] == d[16..20];
    assert s[24..] == d[20..];
  }

  /** Reading the dashed form inverts printing it, so Inverts can be met. */
  lemma {:induction false} DashedParserInverts()
    ensures Inverts(ParseDashedUuid)
  {
    forall u: Uuid ensures ParseDashedUuid(PrintUuid(u)) == Some(u) {
      DashedPieces(Hex(u));
      forall i | 0 <= i < 32 ensures UnhexDigit(Hex(u)[i]) == Some(u[i]) {
        HexDigitsReadBack(u[i]);
      }
      assert Unhex(Hex(u)).value == u;
    }
  }

  lemma {:induction false} PrintedUuidDotFree(u: Uuid)
    ensures '.' !in PrintUuid(u)
  {
    forall i | 0 <= i < 32 ensures Hex(u)[i] != '.' {
      HexDigitsReadBack(u[i]);
    }
  }

  // ----- strings.Split, strings.Join, strings.SplitN with separator "." -----

  function Split(s: string): (parts: seq<string>)
    ensures |parts| >= 1
  {
    if s == "" then [""]
    else
      var rest := Split(s[1..]);
      if s[0] == '.' then [""] + rest else [[s[0]] + rest[0]] + rest[1..]
  }

  function Join(parts: seq<string>): string
    requires |parts| >= 1
  {
    if |parts| == 1 then parts[0] else parts[0] + "." + Join(parts[1..])
  }

  /** The text before the first dot and the text after it. */
  function Cut(s: string): Option<(string, string)> {
    if s == "" then None
    else if s[0] == '.' then Some(("", s[1..]))
    else match Cut(s[1..])
      case None => None
      case Some(p) => Some(([s[0]] + p.0, p.1))
  }

  /** At most n pieces; the last keeps every remaining dot. */
  function SplitN(s: string, n: nat): seq<string>
    requires n >= 1
    decreases n
  {
    if n == 1 then [s]
    else match Cut(s)
      case None => [s]
      case Some(p) => [p.0] + SplitN(p.1, n - 1)
  }

  ghost predicate DotFree(parts: seq<string>) {
    forall i :: 0 <= i < |parts| ==> '.' !in parts[i]
  }

  lemma {:induction false} JoinSplit(s: string)
    ensures Join(Split(s)) == s && DotFree(Split(s))
  {
    if s != "" {
      JoinSplit(s[1..]);
      var rest := Split(s[1..]);
      if s[0] == '.' {
        assert ([""] + rest)[1..] == rest;
        assert s == "" + "." + s[1..];
      } else {
        var parts := [[s[0]] + rest[0]] + rest[1..];
        assert parts[1..] == rest[1..];
        assert Join(parts) == [s[0]] + Join(rest);
      }
    }
  }

  /** Where the first dot is decides where both splitters cut first. */
  lemma {:induction false} CutMeaning(s: string)
    ensures Cut(s).None? ==> Split(s) == [s]
    ensures Cut(s).Some? ==> var (a, b) := Cut(s).value;
      '.' !in a && s == a + "." + b && Split(s) == [a] + Split(b)
  {
    if s != "" && s[0] != '.' {
      CutMeaning(s[1..]);
      if Cut(s).Some? {
        var (a, b) := Cut(s).value;
        assert s == [s[0]] + s[1..];
        assert Split(s[1..]) == [a[1..]] + Split(b);
        assert [s[0]] + a[1..] == a;
      } else {
        assert s == [s[0]] + s[1..];
      }
    } else if s != "" {
      assert s == "" + "." + s[1..];
    }
  }

  lemma {:induction false} CutAfterDotFree(a: string, b: string)
    requires '.' !in a
    ensures Cut(a + "." + b) == Some((a, b))
  {
    var s := a + "." + b;
    if a == "" {
      assert s[1..] == b;
    } else {
      assert s[1..] == a[1..] + "." + b;
      assert a[0] in a && a == [a[0]] + a[1..];
      CutAfterDotFree(a[1..], b);
    }
  }

  /** SplitN keeps the first n - 1 pieces of Split and joins the rest again. */
  lemma {:induction false} SplitNMeaning(s: string, n: nat)
    requires n >= 1
    ensures SplitN(s, n) == Regroup(Split(s), n)
    decreases n
  {
    JoinSplit(s);
    CutMeaning(s);
    if n > 1 && Cut(s).Some? {
      var (a, b) := Cut(s).value;
      SplitNMeaning(b, n - 1);
      RegroupCons(a, Split(b), n);
    } else if n == 1 {
      RegroupOne(Split(s));
    }
  }

  ghost function Regroup(parts: seq<string>, n: nat): seq<string>
    requires n >= 1
  {
    if |parts| <= n then parts else parts[..n - 1] + [Join(parts[n - 1..])]
  }

  lemma {:induction false} RegroupCons(a: string, rest: seq<string>, n: nat)
    requires n > 1
    ensures Regroup([a] + rest, n) == [a] + Regroup(rest, n - 1)
  {
    if |rest| > n - 1 {
      var parts := [a] + rest;
      assert parts[..n - 1] == [a] + rest[..n - 2];
      assert parts[n - 1..] == rest[n - 2..];
    }
  }

  lemma {:induction false} RegroupOne(parts: seq<string>)
    requires |parts| >= 1
    ensures Regroup(parts, 1) == [Join(parts)]
  {
    assert parts[0..] == parts;
  }

  // ----- eventbus.Subject and parseSubject -----

  function Subject(tenant: Uuid, domain: string, eventType: string): string {
    "tenant." + PrintUuid(tenant) + "." + domain + "." + eventType
  }

  datatype Parsed = Parsed(tenant: Uuid, domain: string, eventType: string)

  datatype ParseError = BadForm | BadPrefix | BadTenant | EmptyDomain | EmptyEventType

  /** Both services carry this function; the copies differ only in their error texts. */
  function ParseSubject(lib: UuidParser, subject: string): Result<Parsed, ParseError> {
    var parts := SplitN(subject, 4);
    if |parts| != 4 then Err(BadForm)
    else if parts[0] != "tenant" then Err(BadPrefix)
    else match lib(parts[1])
      case None => Err(BadTenant)
      case Some(tenant) =>
        if parts[2] == "" then Err(EmptyDomain)
        else if parts[3] == "" then Err(EmptyEventType)
        else Ok(Parsed(tenant, parts[2], parts[3]))
  }

  lemma {:induction false} SplitFour(a: string, b: string, c: string, d: string)
    requires '.' !in a && '.' !in b && '.' !in c
    ensures SplitN(a + "." + b + "." + c + "." + d, 4) == [a, b, c, d]
  {
    assert a + "." + b + "." + c + "." + d == a + "." + (b + "." + c + "." + d);
    CutAfterDotFree(a, b + "." + c + "." + d);
    assert b + "." + c + "." + d == b + "." + (c + "." + d);
    CutAfterDotFree(b, c + "." + d);
    CutAfterDotFree(c, d);
    assert SplitN(d, 1) == [d];
    assert SplitN(c + "." + d, 2) == [c] + [d];
    assert SplitN(b + "." + (c + "." + d), 3) == [b] + ([c] + [d]);
  }

  lemma {:induction false} FourConcatenated(a: string, b: string, c: string, d: string)
    ensures a + "." + (b + "." + (c + "." + d)) == a + "." + b + "." + c + "." + d
  {
  }

  /** Three cuts in a row: what SplitN makes of them. */
  lemma {:induction false} ThreeCuts(s: string)
    requires |SplitN(s, 4)| == 4
    ensures Cut(s).Some? && Cut(Cut(s).value.1).Some? && Cut(Cut(Cut(s).value.1).value.1).Some?
    ensures var r := Cut(s).value.1; var q := Cut(r).value.1;
      SplitN(s, 4) == [Cut(s).value.0, Cut(r).value.0, Cut(q).value.0, Cut(q).value.1]
  {
    var (a, r) := Cut(s).value;
    assert SplitN(s, 4) == [a] + SplitN(r, 3);
    var (b, q) := Cut(r).value;
    assert SplitN(r, 3) == [b] + SplitN(q, 2);
    var (c, d) := Cut(q).value;
    assert SplitN(q, 2) == [c] + SplitN(d, 1);
  }

  /** When SplitN finds four pieces, the first three are dot-free and all four rebuild the text. */
  lemma {:induction false} FourPieces(s: string)
    requires |SplitN(s, 4)| == 4
    ensures var p := SplitN(s, 4);
      s == p[0] + "." + p[1] + "." + p[2] + "." + p[3] && '.' !in p[0] && '.' !in p[1] && '.' !in p[2]
  {
    ThreeCuts(s);
    var (a, r) := Cut(s).value;
    var (b, q) := Cut(r).value;
    var (c, d) := Cut(q).value;
    CutMeaning(s);
    CutMeaning(r);
    CutMeaning(q);
    FourConcatenated(a, b, c, d);
  }

  /**
   Parsing a printed subject gives the three parts back exactly when the domain is
   non-empty and dot-free and the event type is non-empty. Dots in the event type survive.
   */
  lemma {:induction false} SubjectRoundTrip(lib: UuidParser, tenant: Uuid, domain: string, eventType: string)
    requires Inverts(lib)
    ensures ParseSubject(lib, Subject(tenant, domain, eventType)) == Ok(Parsed(tenant, domain, eventType))
      <==> domain != "" && '.' !in domain && eventType != ""
  {
    var t := PrintUuid(tenant);
    PrintedUuidDotFree(tenant);
    var s := Subject(tenant, domain, eventType);
    assert s == "tenant" + "." + t + "." + domain + "." + eventType;
    if '.' !in domain {
      SplitFour("tenant", t, domain, eventType);
    } else if |SplitN(s, 4)| == 4 {
      FourPieces(s);
    }
  }

  lemma {:induction false} SplitAfterDotFree(a: string, b: string)
    requires '.' !in a
    ensures Split(a + "." + b) == [a] + Split(b)
  {
    CutAfterDotFree(a, b);
    CutMeaning(a + "." + b);
  }

  /** The tokens of a printed subject: the fixed first one, the tenant, the domain, and those of the event type. */
  lemma {:induction false} SubjectTokens(tenant: Uuid, domain: string, eventType: string)
    requires '.' !in domain
    ensures Split(Subject(tenant, domain, eventType)) == ["tenant", PrintUuid(tenant), domain] + Split(eventType)
  {
    var t := PrintUuid(tenant);
    PrintedUuidDotFree(tenant);
    SplitAfterDotFree(domain, eventType);
    SplitAfterDotFree(t, domain + "." + eventType);
    SplitAfterDotFree("tenant", t + "." + (domain + "." + eventType));
    FourConcatenated("tenant", t, domain, eventType);
    assert Subject(tenant, domain, eventType) == "tenant" + "." + t + "." + domain + "." + eventType;
  }

  /** Two subjects of well-formed parts are equal only if all three parts are. */
  lemma {:induction false} SubjectInjective(t1: Uuid, d1: string, e1: string, t2: Uuid, d2: string, e2: string)
    requires '.' !in d1 && d1 != "" && e1 != "" && '.' !in d2 && d2 != "" && e2 != ""
    requires Subject(t1, d1, e1) == Subject(t2, d2, e2)
    ensures t1 == t2 && d1 == d2 && e1 == e2
  {
    DashedParserInverts();
    SubjectRoundTrip(ParseDashedUuid, t1, d1, e1);
    SubjectRoundTrip(ParseDashedUuid, t2, d2, e2);
  }

  /** The tenant segment of a subject, when it has four parts. */
  function TenantSegment(subject: string): string {
    var parts := SplitN(subject, 4);
    if |parts| == 4 then parts[1] else ""
  }

  /** Printing a parse gives the subject back exactly when its tenant segment was canonical. */
  lemma {:induction false} ReprintExactlyCanonical(lib: UuidParser, subject: string)
    requires ParseSubject(lib, subject).Ok?
    ensures var p := ParseSubject(lib, subject).value;
      Subject(p.tenant, p.domain, p.eventType) == subject <==> TenantSegment(subject) == PrintUuid(p.tenant)
  {
    var p := ParseSubject(lib, subject).value;
    var parts := SplitN(subject, 4);
    FourPieces(subject);
    var t := PrintUuid(p.tenant);
    PrintedUuidDotFree(p.tenant);
    assert subject == "tenant" + "." + parts[1] + "." + p.domain + "." + p.eventType;
    assert Subject(p.tenant, p.domain, p.eventType) == "tenant" + "." + t + "." + p.domain + "." + p.eventType;
    SplitFour("tenant", t, p.domain, p.eventType);
  }

  /** An upper-case tenant segment parses but prints differently, so ParseSubject is not injective. */
  lemma {:induction false} UpperCaseTenantReprints()
    ensures exists subject ::
      && ParseSubject(ParseDashedUuid, subject).Ok?
      && var p := ParseSubject(ParseDashedUuid, subject).value;
         Subject(p.tenant, p.domain, p.eventType) != subject
  {
    var digits := seq(32, _ => 'A');
    var segment := Dashed(digits);
    DashedPieces(digits);
    assert '.' !in segment;
    var subject := "tenant" + "." + segment + "." + "task" + "." + "completed";
    SplitFour("tenant", segment, "task", "completed");
    ReprintExactlyCanonical(ParseDashedUuid, subject);
    var p := ParseSubject(ParseDashedUuid, subject).value;
    DashedPieces(Hex(p.tenant));
    assert Hex(p.tenant)[0] != digits[0] by {
      HexLower(p.tenant[0]);
    }
  }

  lemma {:induction false} HexLower(n: Nibble)
    ensures HEX[n] != 'A'
  {
  }

  // ----- classify and the four filters -----

  datatype EventType = ReservationCreated | ReservationRejected | AgentStatusChanged | AgentDeleted

  function FilterTokens(e: EventType): seq<string> {
    match e
    case ReservationCreated => ["tenant", "*", "reservation", "created"]
    case ReservationRejected => ["tenant", "*", "reservation", "rejected"]
    case AgentStatusChanged => ["tenant", "*", "agent", "status", "changed"]
    case AgentDeleted => ["tenant", "*", "agent", "deleted"]
  }

  /** Subject matching of the stream: "*" stands for one non-empty token. */
  predicate Matches(pattern: seq<string>, tokens: seq<string>) {
    && |pattern| == |tokens|
    && forall i :: 0 <= i < |pattern| ==> if pattern[i] == "*" then tokens[i] != "" else tokens[i] == pattern[i]
  }

  function Classify(subject: string): Option<(EventType, string)> {
    var parts := Split(subject);
    if |parts| < 4 || parts[0] != "tenant" then None
    else
      var tenant, domain, rest := parts[1], parts[2], Join(parts[3..]);
      if domain == "reservation" && rest == "created" then Some((ReservationCreated, tenant))
      else if domain == "reservation" && rest == "rejected" then Some((ReservationRejected, tenant))
      else if domain == "agent" && rest == "status.changed" then Some((AgentStatusChanged, tenant))
      else if domain == "agent" && rest == "deleted" then Some((AgentDeleted, tenant))
      else None
  }

  /** Splitting undoes joining on dot-free pieces. */
  lemma {:induction false} SplitJoin(parts: seq<string>)
    requires |parts| >= 1 && DotFree(parts)
    ensures Split(Join(parts)) == parts
  {
    CutMeaning(Join(parts));
    if |parts| == 1 {
      if Cut(parts[0]).Some? {
        var (a, b) := Cut(parts[0]).value;
        assert '.' in a + "." + b;
      }
    } else {
      CutAfterDotFree(parts[0], Join(parts[1..]));
      SplitJoin(parts[1..]);
    }
  }

  /** A tail of pieces joins to a given dot-free-piece text exactly when it is those pieces. */
  lemma {:induction false} JoinedTail(tail: seq<string>, expected: seq<string>)
    requires |tail| >= 1 && |expected| >= 1 && DotFree(tail) && DotFree(expected)
    ensures Join(tail) == Join(expected) <==> tail == expected
  {
    SplitJoin(tail);
    SplitJoin(expected);
  }

  lemma {:induction false} MatchesFour(domain: string, word: string, tokens: seq<string>)
    requires domain != "*" && word != "*"
    ensures Matches(["tenant", "*", domain, word], tokens)
      <==> |tokens| == 4 && tokens[0] == "tenant" && tokens[1] != "" && tokens[2] == domain && tokens[3..] == [word]
  {
    var pattern := ["tenant", "*", domain, word];
    if Matches(pattern, tokens) {
      assert pattern[0] == "tenant" && pattern[1] == "*" && pattern[2] == domain && pattern[3] == word;
    } else if |tokens| == 4 {
      assert tokens[3..] == [tokens[3]];
    }
  }

  lemma {:induction false} MatchesFive(domain: string, w1: string, w2: string, tokens: seq<string>)
    requires domain != "*" && w1 != "*" && w2 != "*"
    ensures Matches(["tenant", "*", domain, w1, w2], tokens)
      <==> |tokens| == 5 && tokens[0] == "tenant" && tokens[1] != "" && tokens[2] == domain && tokens[3..] == [w1, w2]
  {
    var pattern := ["tenant", "*", domain, w1, w2];
    if Matches(pattern, tokens) {
      assert pattern[0] == "tenant" && pattern[1] == "*" && pattern[2] == domain
        && pattern[3] == w1 && pattern[4] == w2;
    } else if |tokens| == 5 {
      assert tokens[3..] == [tokens[3], tokens[4]];
    }
  }

  /** What the text of the joined tail says about the tail itself. */
  lemma {:induction false} TailWords(subject: string)
    requires |Split(subject)| >= 4
    ensures var tail := Split(subject)[3..];
      && (Join(tail) == "created" <==> tail == ["created"])
      && (Join(tail) == "rejected" <==> tail == ["rejected"])
      && (Join(tail) == "deleted" <==> tail == ["deleted"])
      && (Join(tail) == "status.changed" <==> tail == ["status", "changed"])
  {
    JoinSplit(subject);
    var tail := Split(subject)[3..];
    JoinedTail(tail, ["created"]);
    JoinedTail(tail, ["rejected"]);
    JoinedTail(tail, ["deleted"]);
    var two := ["status", "changed"];
    assert two[1..] == ["changed"];
    assert Join(two) == "status" + "." + Join(["changed"]);
    assert Join(two) == "status.changed";
    JoinedTail(tail, two);
  }

  /**
   For every subject: classify names an event type and a non-empty tenant exactly when that
   type's filter matches, and the tenant is the token the wildcard stood for.
   */
  lemma {:induction false} ClassifyAgreesWithFilters(subject: string, e: EventType)
    ensures Matches(FilterTokens(e), Split(subject))
      <==> Classify(subject).Some? && Classify(subject).value.0 == e && Classify(subject).value.1 != ""
    ensures Matches(FilterTokens(e), Split(subject)) ==> Classify(subject).value.1 == Split(subject)[1]
  {
    var parts := Split(subject);
    if |parts| >= 4 {
      TailWords(subject);
    }
    match e {
      case ReservationCreated => MatchesFour("reservation", "created", parts);
      case ReservationRejected => MatchesFour("reservation", "rejected", parts);
      case AgentStatusChanged => MatchesFive("agent", "status", "changed", parts);
      case AgentDeleted => MatchesFour("agent", "deleted", parts);
    }
  }

  /** At most one of the four filters matches a subject. */
  lemma {:induction false} FiltersExclusive(subject: string, e1: EventType, e2: EventType)
    requires Matches(FilterTokens(e1), Split(subject)) && Matches(FilterTokens(e2), Split(subject))
    ensures e1 == e2
  {
    ClassifyAgreesWithFilters(subject, e1);
    ClassifyAgreesWithFilters(subject, e2);
  }

  /** The one family on which they differ: classify accepts an empty tenant token. */
  lemma {:induction false} EmptyTenantClassified(subject: string)
    requires Split(subject) == ["tenant", "", "agent", "deleted"]
    ensures Classify(subject) == Some((AgentDeleted, ""))
    ensures forall e :: !Matches(FilterTokens(e), Split(subject))
  {
    TailWords(subject);
    assert Split(subject)[3..] == ["deleted"];
    forall e ensures !Matches(FilterTokens(e), Split(subject)) {
      ClassifyAgreesWithFilters(subject, e);
    }
  }

  /** What classify does with an empty tenant token: what it does with any other in its place. */
  lemma {:induction false} EmptyTenantKinds(subject: string, e: EventType)
    ensures Classify(subject) == Some((e, "")) <==>
      var tokens := Split(subject);
      |tokens| >= 2 && tokens[1] == "" && Matches(FilterTokens(e), tokens[1 := "t"])
  {
    var tokens := Split(subject);
    JoinSplit(subject);
    if |tokens| >= 2 && tokens[1] == "" {
      var named := tokens[1 := "t"];
      SplitJoin(named);
      assert |tokens| >= 4 ==> named[3..] == tokens[3..];
      ClassifyAgreesWithFilters(Join(named), e);
      assert Classify(subject).Some? <==> Classify(Join(named)).Some?;
    }
  }

  /** Which error parseSubject reports, in the order it checks: by the tokens of the subject. */
  lemma {:induction false} ParseRefusals(lib: UuidParser, subject: string)
    ensures var tokens, r := Split(subject), ParseSubject(lib, subject);
      && (r == Err(BadForm) <==> |tokens| < 4)
      && (r == Err(BadPrefix) <==> |tokens| >= 4 && tokens[0] != "tenant")
      && (r == Err(BadTenant) <==> |tokens| >= 4 && tokens[0] == "tenant" && lib(tokens[1]) == None)
      && (r == Err(EmptyDomain) <==>
            |tokens| >= 4 && tokens[0] == "tenant" && lib(tokens[1]).Some? && tokens[2] == "")
      && (r == Err(EmptyEventType) <==>
            |tokens| >= 4 && tokens[0] == "tenant" && lib(tokens[1]).Some? && tokens[2] != ""
            && Join(tokens[3..]) == "")
      && (r.Ok? ==> lib(tokens[1]) == Some(r.value.tenant)
                    && tokens[2] == r.value.domain && Join(tokens[3..]) == r.value.eventType)
  {
    SplitNMeaning(subject, 4);
    var tokens := Split(subject);
    if |tokens| == 4 {
      assert tokens[3..] == [tokens[3]];
    }
  }

  /** A member of that family. */
  lemma {:induction false} ClassifyAcceptsEmptyTenant()
    ensures exists subject ::
      && Classify(subject) == Some((AgentDeleted, ""))
      && (forall e :: !Matches(FilterTokens(e), Split(subject)))
  {
    var subject := Join(["tenant", "", "agent", "deleted"]);
    SplitJoin(["tenant", "", "agent", "deleted"]);
    EmptyTenantClassified(subject);
  }

  function EventTypeText(e: EventType): string {
    match e
    case ReservationCreated => "created"
    case ReservationRejected => "rejected"
    case AgentStatusChanged => "status.changed"
    case AgentDeleted => "deleted"
  }

  /** Wherever classify and parseSubject both accept a subject, they read the same event. */
  lemma {:induction false} ClassifyAgreesWithParser(lib: UuidParser, subject: string)
    requires Classify(subject).Some? && ParseSubject(lib, subject).Ok?
    ensures var (e, tenant), p := Classify(subject).value, ParseSubject(lib, subject).value;
      && lib(tenant) == Some(p.tenant)
      && p.domain == (if e.ReservationCreated? || e.ReservationRejected? then "reservation" else "agent")
      && p.eventType == EventTypeText(e)
  {
    SplitNMeaning(subject, 4);
    var parts := Split(subject);
    if |parts| == 4 {
      assert parts[3..] == [parts[3]];
    }
  }
}
