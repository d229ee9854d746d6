/** The vocabulary of the route files: HTTP verbs, request bodies, the
    express-validator `check(...)` chains, and the stages a request passes
    through inside a router. */
module Routing {

  datatype Verb = Get | Head | Post | Put | Patch | Delete | Options

  /** `app.get` and `router.get` also answer HEAD. */
  predicate Reads(v: Verb) {
    v == Get || v == Head
  }

  /** One character with an ASCII capital replaced by its small letter. */
  function LowerChar(c: char): (l: char)
    ensures 'A' <= c <= 'Z' ==> 'a' <= l <= 'z' && l as int - c as int == 32
    ensures !('A' <= c <= 'Z') ==> l == c
  {
    if 'A' <= c <= 'Z' then (c as int + 32) as char else c
  }

  function Lower(s: string): (r: string)
    ensures |r| == |s| && forall i :: 0 <= i < |s| ==> r[i] == LowerChar(s[i])
  {
    seq(|s|, i requires 0 <= i < |s| => LowerChar(s[i]))
  }

  /** A path segment matches a literal segment of a route. Express matches
      paths without regard to case; every literal of this application is
      lower-case ASCII, and a non-ASCII character never matches an ASCII one
      under that comparison, so folding ASCII capitals is the whole of it. */
  predicate Is(segment: string, literal: string) {
    Lower(segment) == literal
  }

  /** A segment written in small letters matches itself, and so does every
      spelling of it that differs only in the case of its letters. */
  lemma MatchesItself(literal: string, segment: string)
    requires forall i :: 0 <= i < |literal| ==> !('A' <= literal[i] <= 'Z')
    requires Lower(segment) == Lower(literal)
    ensures Is(literal, literal) && Is(segment, literal)
  {
    assert Lower(literal) == literal;
  }

  /** `req.body` as parsed by body-parser or multer; an absent field reads as
      the empty string, which is what express-validator checks it as. */
  type Body = map<string, string>

  function Field(b: Body, name: string): string {
    if name in b then b[name] else ""
  }

  /** `normalizeEmail()` and `isEmail()`, which come from the validator
      library and are not modelled. */
  datatype EmailChecks = EmailChecks(normalize: string -> string, isEmail: string -> bool)

  /** One `check(field)` chain. */
  datatype Rule =
    | NotEmpty(field: string)                     // check(f).not().isEmpty()
    | MinLength(field: string, min: nat)          // check(f).isLength({ min })
    | Email(field: string, lib: EmailChecks)      // check(f).normalizeEmail().isEmail()

  predicate Holds(rule: Rule, b: Body) {
    match rule
    case NotEmpty(f) => Field(b, f) != ""
    case MinLength(f, n) => |Field(b, f)| >= n
    case Email(f, lib) => lib.isEmail(lib.normalize(Field(b, f)))
  }

  /** `validationResult(req).isEmpty()`: no chain reported an error. */
  predicate AllHold(rules: seq<Rule>, b: Body) {
    forall i :: 0 <= i < |rules| ==> Holds(rules[i], b)
  }

  /** The body as the handler sees it after the chains ran: `normalizeEmail`
      rewrites the field it checks. */
  function Sanitize(rules: seq<Rule>, b: Body): (r: Body)
    // no field is added or dropped
    ensures r.Keys == b.Keys
    // a field no `normalizeEmail` chain names keeps its value
    ensures forall f :: (f in b && forall i :: 0 <= i < |rules| ==> !(rules[i].Email? && rules[i].field == f))
                        ==> r[f] == b[f]
  {
    if rules == [] then b
    else
      var b' := match rules[0]
        case Email(f, lib) => if f in b then b[f := lib.normalize(b[f])] else b
        case _ => b;
      Sanitize(rules[1..], b')
  }

  /** The controller functions a route can end in. */
  datatype Handler =
    | GetPlaceById | GetPlacesByUserId | CreatePlace | UpdatePlace | DeletePlace
    | GetUsers | Signup | Login

  /** One middleware a request passes through, in registration order. */
  datatype Stage =
    | Authenticate              // check-auth
    | Upload(field: string)     // fileUpload.single(field)
    | Validate(rules: seq<Rule>)
    | Handle(handler: Handler)
    | AnswerOptions             // the router's own reply to OPTIONS on a path some route registers
    | ServeFile                 // express.static answers with a stored file
    | Unmatched                 // falls out of every router, to the not-found middleware

  /** The last stage of a chain: the request ends there or leaves the router. */
  predicate Terminal(s: Stage) {
    s.Handle? || s.AnswerOptions? || s.ServeFile? || s.Unmatched?
  }
}
