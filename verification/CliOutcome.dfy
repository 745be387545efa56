/** Which takeovers are accepted, and what holds once one is in place. */
module CliOutcome {
  import opened Wrappers
  import opened JsonValues
  import opened Strings
  import opened CliSettings
  import opened CliTakeover

  // Switches for other providers.

  /** The same word, its letters in lower or upper case. */
  predicate InAnyCase(text: string, word: string) {
    && |text| == |word|
    && forall i | 0 <= i < |word| :: text[i] == word[i] || text[i] as int + 32 == word[i] as int
  }

  /** A switch is off if absent, or false, null, zero, blank, or the text "0" or "false" in any case. */
  ghost predicate Off(value: Json) {
    match value
    case Null => true
    case Bool(flag) => !flag
    case Number(amount) => amount == 0.0
    case String(text) => Blank(text) || Padded(text, "0") || exists word :: Padded(text, word) && InAnyCase(word, "false")
    case _ => false
  }

  lemma LowerIff(c: char, l: char)
    requires 'a' <= l <= 'z'
    ensures LowerCase(c) == l <==> c == l || c as int + 32 == l as int
  {
  }

  lemma LoweredIff(text: string)
    ensures Lowered(text) == "false" <==> InAnyCase(text, "false")
  {
    var word := "false";
    forall i | 0 <= i < 5 && i < |text|
      ensures Lowered(text)[i] == word[i] <==> text[i] == word[i] || text[i] as int + 32 == word[i] as int
    {
      LowerIff(text[i], word[i]);
    }
    if InAnyCase(text, word) {
      assert Lowered(text) == word;
    }
    if Lowered(text) == word {
      assert |text| == 5 && forall i | 0 <= i < 5 :: Lowered(text)[i] == word[i];
    }
  }

  lemma BlankIff(text: string)
    ensures Blank(text) <==> Trim(text) == ""
  {
    TrimIff(text, "");
    if Blank(text) {
      assert text == text + "" + "" && Blank("");
    }
    if a, b :| Blank(a) && Blank(b) && text == a + "" + b {
      assert text == a + b;
    }
  }

  lemma OffIff(value: Json)
    ensures FeatureEnabled(value) <==> !Off(value)
  {
    if value.String? {
      var text := value.text;
      BlankIff(text);
      TrimIff(text, "0");
      forall word
        ensures Padded(text, word) <==> Trim(text) == word
      {
        TrimIff(text, word);
      }
      LoweredIff(Trim(text));
    }
  }

  // Which takeovers are accepted.

  /** Nothing else provides credentials or an endpoint; what the takeover owns, or would write, is no rival. */
  ghost predicate Unrivalled(fields: Fields, owned: map<string, KeyRecord>, desired: Env) {
    && (match Object(fields).Get("apiKeyHelper") case Some(String(helper)) => Blank(helper) case _ => true)
    && match Object(fields).Get("env")
       case None => true
       case Some(Object(env)) =>
         && ("ANTHROPIC_BASE_URL" in env ==> Expected(env, owned, desired, "ANTHROPIC_BASE_URL"))
         && ("ANTHROPIC_API_KEY" in env ==>
               Expected(env, owned, desired, "ANTHROPIC_API_KEY")
               || (env["ANTHROPIC_API_KEY"].String? && Blank(env["ANTHROPIC_API_KEY"].text)))
         && (forall key | key in {"CLAUDE_CODE_USE_BEDROCK", "CLAUDE_CODE_USE_VERTEX", "CLAUDE_CODE_USE_FOUNDRY"} && key in env ::
               Expected(env, owned, desired, key) || Off(env[key]))
         && (forall key | key in owned :: Ours(env, owned, key) || AlreadyWritten(env, desired, key))
       case Some(_) => false
  }

  predicate Expected(env: Env, owned: map<string, KeyRecord>, desired: Env, key: string)
    requires key in env
  {
    key in owned || (key in desired && desired[key] == env[key])
  }

  /** The user has set the key to the very string being written. */
  predicate AlreadyWritten(env: Env, desired: Env, key: string) {
    key in env && key in desired && env[key] == desired[key] && env[key].String?
  }

  lemma GuardedAre()
    ensures forall key :: key in GUARDED_KEYS <==>
              key in {"ANTHROPIC_BASE_URL", "ANTHROPIC_API_KEY", "CLAUDE_CODE_USE_BEDROCK", "CLAUDE_CODE_USE_VERTEX", "CLAUDE_CODE_USE_FOUNDRY"}
    ensures BASE_URL_KEY != API_KEY_KEY
    ensures {BASE_URL_KEY, API_KEY_KEY} !! {"CLAUDE_CODE_USE_BEDROCK", "CLAUDE_CODE_USE_VERTEX", "CLAUDE_CODE_USE_FOUNDRY"}
  {
    assert |BASE_URL_KEY| == 18 && |API_KEY_KEY| == 17 && |BEDROCK_KEY| == 23 && |VERTEX_KEY| == 22 && |FOUNDRY_KEY| == 23;
  }

  lemma HelperIff(fields: Fields)
    ensures HelperSet(fields) <==> match Object(fields).Get("apiKeyHelper") case Some(String(helper)) => !Blank(helper) case _ => false
  {
    var helper := Lookup(fields, "apiKeyHelper");
    if helper.Some? && helper.value.String? {
      BlankIff(helper.value.text);
    }
  }

  lemma ForeignIff(env: Env, owned: map<string, KeyRecord>, desired: Env, key: string)
    requires key in GUARDED_KEYS
    ensures Foreign(env, owned, desired, key) <==>
            key in env && !Expected(env, owned, desired, key)
            && (key != "ANTHROPIC_BASE_URL" ==>
                  if key == "ANTHROPIC_API_KEY" then !(env[key].String? && Blank(env[key].text)) else !Off(env[key]))
  {
    if key in env {
      OffIff(env[key]);
      if env[key].String? {
        BlankIff(env[key].text);
      }
    }
  }

  lemma FreeIff(fields: Fields, owned: map<string, KeyRecord>, desired: Env)
    ensures Free(fields, owned, desired) <==> Unrivalled(fields, owned, desired)
  {
    hide Foreign, HelperSet, Off, Blank;
    GuardedAre();
    HelperIff(fields);
    if ENV_KEY in fields && fields[ENV_KEY].Object? {
      var env := fields[ENV_KEY].fields;
      forall key | key in GUARDED_KEYS
        ensures Foreign(env, owned, desired, key) <==>
                key in env && !Expected(env, owned, desired, key)
                && (key != "ANTHROPIC_BASE_URL" ==>
                      if key == "ANTHROPIC_API_KEY" then !(env[key].String? && Blank(env[key].text)) else !Off(env[key]))
      {
        ForeignIff(env, owned, desired, key);
      }
      if Free(fields, owned, desired) {
        FreeIsUnrivalled(fields, owned, desired);
      }
      if Unrivalled(fields, owned, desired) {
        UnrivalledIsFree(fields, owned, desired);
      }
    } else {
      assert Free(fields, owned, desired) <==> !Reported(fields, owned, desired, ApiKeyHelper) && !Reported(fields, owned, desired, EnvType);
    }
  }

  lemma FreeIsUnrivalled(fields: Fields, owned: map<string, KeyRecord>, desired: Env)
    requires Free(fields, owned, desired) && ENV_KEY in fields && fields[ENV_KEY].Object?
    ensures Unrivalled(fields, owned, desired)
  {
    hide Foreign, HelperSet, Off, Blank;
    GuardedAre();
    HelperIff(fields);
    var env := fields[ENV_KEY].fields;
    assert !Reported(fields, owned, desired, ApiKeyHelper);
    forall key | key in GUARDED_KEYS
      ensures !Foreign(env, owned, desired, key)
    {
      assert !Reported(fields, owned, desired, ForeignValue(key));
      ForeignIff(env, owned, desired, key);
    }
    ForeignIff(env, owned, desired, "ANTHROPIC_BASE_URL");
    ForeignIff(env, owned, desired, "ANTHROPIC_API_KEY");
    forall key | key in {"CLAUDE_CODE_USE_BEDROCK", "CLAUDE_CODE_USE_VERTEX", "CLAUDE_CODE_USE_FOUNDRY"} && key in env
      ensures Expected(env, owned, desired, key) || Off(env[key])
    {
      ForeignIff(env, owned, desired, key);
    }
    forall key | key in owned
      ensures Ours(env, owned, key) || AlreadyWritten(env, desired, key)
    {
      assert !Reported(fields, owned, desired, UserModified(key));
    }
  }

  lemma UnrivalledIsFree(fields: Fields, owned: map<string, KeyRecord>, desired: Env)
    requires Unrivalled(fields, owned, desired) && ENV_KEY in fields && fields[ENV_KEY].Object?
    ensures Free(fields, owned, desired)
  {
    hide Foreign, HelperSet, Off, Blank;
    GuardedAre();
    HelperIff(fields);
    var env := fields[ENV_KEY].fields;
    forall c
      ensures !Reported(fields, owned, desired, c)
    {
      if c.ForeignValue? && c.key in GUARDED_KEYS {
        ForeignIff(env, owned, desired, c.key);
      }
      if c.UserModified? && c.key in owned {
        assert Ours(env, owned, c.key) || AlreadyWritten(env, desired, c.key);
      }
    }
  }

  /** An apply is accepted if and only if the program is there, unmanaged, its settings are readable and without a rival. */
  lemma AcceptedIff(s: Cli, desired: Env)
    ensures CanApply(s, desired) <==>
            && s.installed && !s.managed && DocumentOf(s.settings).Some?
            && (s.receipt.Some? ==> s.receipt.value.settingsPath == s.path)
            && Unrivalled(DocumentOf(s.settings).value, if s.receipt.Some? then s.receipt.value.keys else map[], desired)
  {
    hide Free, Unrivalled;
    if DocumentOf(s.settings).Some? {
      FreeIff(DocumentOf(s.settings).value, Owned(s.receipt), desired);
    }
  }

  /** Before a first takeover, the status says ready exactly if applying the gateway's values would be accepted. */
  lemma ReadyIffAccepted(s: Cli, gateway: Gateway)
    requires s.receipt.None?
    ensures Inspect(s, Some(gateway)) == Ready <==> CanApply(s, gateway.desired)
  {
    if s.settings.Missing? {
      assert Free(map[], map[], gateway.desired);
    }
  }

  /** Undo refuses a receipt for another path, and settings it cannot read. */
  lemma UndoAcceptedIff(s: Cli)
    ensures CanUndo(s) <==>
            s.receipt.None?
            || (s.receipt.value.settingsPath == s.path && (s.settings.Missing? || (s.settings.Parsed? && s.settings.document.Object?)))
  {
  }

  lemma {:induction false} ValidModelsIff(models: seq<CliModel>)
    ensures ValidModels(models) <==>
            && (forall i | 0 <= i < |models| :: !Blank(models[i].modelHash))
            && (forall i, j | 0 <= i < j < |models| :: models[i].family != models[j].family)
  {
    if models != [] {
      var init, last := models[..|models| - 1], models[|models| - 1];
      ValidModelsIff(init);
      FamiliesMeaning(init, last.family);
      BlankIff(last.modelHash);
      assert forall i | 0 <= i < |init| :: init[i] == models[i];
    }
  }

  /** A route is accepted if its URL and token are good, no model is blank and no family is named twice. */
  lemma ValidRouteIff(route: CliRoute)
    ensures ValidRoute(route) <==>
            && route.validUrl && !Blank(route.token)
            && (forall i | 0 <= i < |route.models| :: !Blank(route.models[i].modelHash))
            && (forall i, j | 0 <= i < j < |route.models| :: route.models[i].family != route.models[j].family)
  {
    BlankIff(route.token);
    ValidModelsIff(route.models);
  }

  /** A takeover counts as in conflict if and only if some written value is not in place, or the receipt is for another file. */
  lemma ConflictIff(s: Cli, gateway: Option<Gateway>)
    requires s.receipt.Some? && !s.managed
    ensures Inspect(s, gateway) == Conflicting <==>
            s.receipt.value.settingsPath != s.path || !s.settings.Parsed?
            || exists key :: key in s.receipt.value.keys && !Ours(VarsIn(s.settings), s.receipt.value.keys, key)
  {
    var keys := s.receipt.value.keys;
    if s.settings.Parsed? {
      forall key | key in keys
        ensures Ours(VarsIn(s.settings), keys, key) <==>
                s.settings.document.Object?
                && Lookup(EnvOf(s.settings.document.fields).GetOr(map[]), key) == Some(keys[key].applied)
      {
      }
    }
  }

  // What holds once a takeover is in place.

  /**
   After an apply of a valid route Claude Code finds the gateway's URL, its token, and the
   models of the route under their families; every other variable is as before, or back to
   its original if it was ours.
   */
  lemma RouteIsInEffect(s: Cli, route: CliRoute)
    requires ValidRoute(route) && CanApply(s, ValuesFor(route, route.models))
    ensures var desired := ValuesFor(route, route.models);
            var before, after := VarsIn(s.settings), VarsIn(Applied(s, desired).settings);
            && Lookup(after, "ANTHROPIC_BASE_URL") == Some(String(route.baseUrl))
            && Lookup(after, "ANTHROPIC_AUTH_TOKEN") == Some(String(route.token))
            && Lookup(after, "CLAUDE_CODE_ATTRIBUTION_HEADER") == Some(String("0"))
            && (forall m | m in route.models :: Lookup(after, ModelEnv(m.family)) == Some(String(Trim(m.modelHash))))
            && (forall m | m in route.models && Trim(m.displayName) != "" :: Lookup(after, NameEnv(m.family)) == Some(String(Trim(m.displayName))))
            && (forall key | key !in desired ::
                  Lookup(after, key) == if Ours(before, Owned(s.receipt), key) then Original(Owned(s.receipt)[key]) else Lookup(before, key))
  {
    hide ValuesFor, Trim, Applied, VarsIn, ModelEnv, NameEnv, Free;
    var desired := ValuesFor(route, route.models);
    ValuesCover(route, route.models);
    forall key
      ensures Lookup(VarsIn(Applied(s, desired).settings), key) ==
              if key in desired then Lookup(desired, key)
              else if Ours(VarsIn(s.settings), Owned(s.receipt), key) then Original(Owned(s.receipt)[key])
              else Lookup(VarsIn(s.settings), key)
    {
      AppliedAt(s, desired, key);
    }
    forall m | m in route.models
      ensures SaysModel(desired, m)
    {
      var i :| 0 <= i < |route.models| && route.models[i] == m;
      assert SaysModel(desired, route.models[i]);
    }
  }

  /** One variable after an apply. */
  lemma AppliedAt(s: Cli, desired: Env, key: string)
    requires CanApply(s, desired)
    ensures var before := VarsIn(s.settings);
            Lookup(VarsIn(Applied(s, desired).settings), key) ==
            if key in desired then Lookup(desired, key)
            else if Ours(before, Owned(s.receipt), key) then Original(Owned(s.receipt)[key])
            else Lookup(before, key)
  {
    ApplyIsReadable(s, desired);
    var env := EnvOf(DocumentOf(s.settings).value).GetOr(map[]);
    UndoneAt(env, Orphans(Owned(s.receipt), desired), key);
  }
}
