/** backend/routes/users-routes.js: the routes under `/api/users`. None of
    them is behind the token check. */
module UsersRoutes {
  import opened Routing

  /** Validators of `POST /signup`. */
  function SignupRules(lib: EmailChecks): (rules: seq<Rule>)
    ensures forall b :: AllHold(rules, b) <==>
      && Field(b, "name") != ""
      && lib.isEmail(lib.normalize(Field(b, "email")))
      && |Field(b, "password")| >= 6
  {
    var rules := [NotEmpty("name"), Email("email", lib), MinLength("password", 6)];
    forall b ensures AllHold(rules, b) <==> Holds(rules[0], b) && Holds(rules[1], b) && Holds(rules[2], b) {
    }
    rules
  }

  /** The body signup reads: the email normalised, nothing else changed. */
  lemma SignupSanitizes(lib: EmailChecks, b: Body)
    ensures var b' := Sanitize(SignupRules(lib), b);
      && Field(b', "email") == (if "email" in b then lib.normalize(b["email"]) else "")
      && Field(b', "name") == Field(b, "name")
      && Field(b', "password") == Field(b, "password")
  {
    var rules := SignupRules(lib);
    var b1 := if "email" in b then b["email" := lib.normalize(b["email"])] else b;
    assert Sanitize(rules[2..][1..], b1) == b1;
    assert Sanitize(rules[2..], b1) == b1;
    assert Sanitize(rules[1..], b) == b1;
  }

  /** The paths below the mount that some route registers: `/`, `/signup`
      and `/login`. */
  predicate Registered(path: seq<string>) {
    path == [] || (|path| == 1 && (Is(path[0], "signup") || Is(path[0], "login")))
  }

  /** The stages a request with verb `v` and path segments `path` (below the
      mount point, empty segments dropped) passes through. */
  function Route(v: Verb, path: seq<string>, lib: EmailChecks): (chain: seq<Stage>)
    ensures |chain| >= 1 && Terminal(chain[|chain| - 1])
    ensures forall i :: 0 <= i < |chain| - 1 ==> !Terminal(chain[i])
    // no user route asks for a token
    ensures forall i :: 0 <= i < |chain| ==> !chain[i].Authenticate?
    ensures Reads(v) && path == [] ==> chain == [Handle(GetUsers)]
    // login runs no validators and takes no upload
    ensures v == Post && |path| == 1 && Is(path[0], "login") ==> chain == [Handle(Login)]
    ensures chain[|chain| - 1] == Handle(Signup) ==>
      && v == Post && |path| == 1 && Is(path[0], "signup")
      && chain[0] == Upload("image") && chain[1].Validate? && chain[1].rules == SignupRules(lib)
    // the router answers OPTIONS itself only on a registered path
    ensures chain == [AnswerOptions] <==> v == Options && Registered(path)
  {
    if Reads(v) && path == [] then [Handle(GetUsers)]
    else if v == Post && |path| == 1 && Is(path[0], "signup") then
      [Upload("image"), Validate(SignupRules(lib)), Handle(Signup)]
    else if v == Post && |path| == 1 && Is(path[0], "login") then [Handle(Login)]
    else if v == Options && Registered(path) then [AnswerOptions]
    else [Unmatched]
  }
}
