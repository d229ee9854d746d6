/** backend/routes/places-routes.js: the routes under `/api/places`. */
module PlacesRoutes {
  import opened Routing

  /** Validators of `POST /`. */
  function CreateRules(): (rules: seq<Rule>)
    ensures forall b :: AllHold(rules, b) <==>
      Field(b, "title") != "" && |Field(b, "description")| >= 5 && Field(b, "address") != ""
  {
    var rules := [NotEmpty("title"), MinLength("description", 5), NotEmpty("address")];
    forall b ensures AllHold(rules, b) <==> Holds(rules[0], b) && Holds(rules[1], b) && Holds(rules[2], b) {
    }
    rules
  }

  /** Validators of `PATCH /:pid`; the address is not checked. */
  function UpdateRules(): (rules: seq<Rule>)
    ensures forall b :: AllHold(rules, b) <==>
      Field(b, "title") != "" && |Field(b, "description")| >= 5
  {
    var rules := [NotEmpty("title"), MinLength("description", 5)];
    forall b ensures AllHold(rules, b) <==> Holds(rules[0], b) && Holds(rules[1], b) {
    }
    rules
  }

  /** The paths below the mount that some route registers: `/` (create),
      `/:pid` (read, update, delete) and `/user/:uid` (a user's places). */
  predicate Registered(path: seq<string>) {
    path == [] || |path| == 1 || (|path| == 2 && Is(path[0], "user"))
  }

  /** The stages a request with verb `v` and path segments `path` (below the
      mount point, empty segments dropped) passes through. The two GET routes
      are registered before `router.use(checkAuth)`; every request that gets
      past them meets the token check, including one that then matches no
      route. */
  function Route(v: Verb, path: seq<string>): (chain: seq<Stage>)
    ensures |chain| >= 1 && Terminal(chain[|chain| - 1])
    ensures forall i :: 0 <= i < |chain| - 1 ==> !Terminal(chain[i])
    ensures Reads(v) && |path| == 1 ==> chain == [Handle(GetPlaceById)]
    ensures Reads(v) && |path| == 2 && Is(path[0], "user") ==> chain == [Handle(GetPlacesByUserId)]
    ensures (forall i :: 0 <= i < |chain| ==> !chain[i].Authenticate?) <==>
      Reads(v) && (|path| == 1 || (|path| == 2 && Is(path[0], "user")))
    ensures !chain[0].Authenticate? ==> |chain| == 1
    // creating, updating and deleting a place all sit behind the token check
    ensures chain[|chain| - 1].Handle? && chain[|chain| - 1].handler in {CreatePlace, UpdatePlace, DeletePlace}
      ==> chain[0].Authenticate?
    // only creation takes an upload, a single file from the `image` field
    ensures chain[|chain| - 1] == Handle(CreatePlace) ==> chain[1] == Upload("image")
    ensures forall i :: 0 <= i < |chain| && chain[i].Upload? ==> chain[|chain| - 1] == Handle(CreatePlace)
    // deletion runs no validators
    ensures chain[|chain| - 1] == Handle(DeletePlace) ==> forall i :: 0 <= i < |chain| ==> !chain[i].Validate?
    // the router answers OPTIONS itself only on a registered path, after the token check let it through
    ensures chain[|chain| - 1] == AnswerOptions <==> v == Options && Registered(path)
  {
    if Reads(v) && |path| == 1 then [Handle(GetPlaceById)]
    else if Reads(v) && |path| == 2 && Is(path[0], "user") then [Handle(GetPlacesByUserId)]
    else
      var chain := [Authenticate] +
        if v == Post && path == [] then [Upload("image"), Validate(CreateRules()), Handle(CreatePlace)]
        else if v == Patch && |path| == 1 then [Validate(UpdateRules()), Handle(UpdatePlace)]
        else if v == Delete && |path| == 1 then [Handle(DeletePlace)]
        else if v == Options && Registered(path) then [AnswerOptions]
        else [Unmatched];
      assert chain[0].Authenticate?;
      chain
  }

  /** The `user` segment is matched whatever the case of its letters: the
      listing of a user's places needs no token under any spelling. */
  lemma UserSegmentIgnoresCase(v: Verb, uid: string)
    requires Reads(v)
    ensures Route(v, ["USER", uid]) == Route(v, ["User", uid]) == Route(v, ["user", uid]) == [Handle(GetPlacesByUserId)]
  {
    MatchesItself("user", "USER");
    MatchesItself("user", "User");
  }
}
