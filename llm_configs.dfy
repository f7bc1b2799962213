/**
  The per-user LLM configuration rules of the back end (backend/app/routers/users.py).

  The database table of configurations is an in-memory sequence in insertion
  order; `UserConfigs` stands for the query `get_user_llm_configs`
  (backend/app/crud.py:42). The store is a class because the setup handler adds
  a row to it.
 */
module LlmConfigs {
  import opened Wrappers
  import opened Validation

  /** The provider id the handler takes to be GROQ. */
  const GroqProviderId := 1

  datatype ConfigParams = ConfigParams(temperature: int, maxTokens: Option<int>)

  datatype LlmConfig = LlmConfig(
    id: nat,
    userId: nat,
    providerId: int,
    modelName: string,
    apiKey: Option<string>,
    params: ConfigParams,
    isDefault: bool)

  /** An HTTP error: its status and its `detail`, either a plain text or a message with an error type. */
  datatype Detail = Text(text: string) | Rejection(message: string, errorType: string)
  datatype HttpError = HttpError(status: int, detail: Detail)

  const AlreadyConfigured := HttpError(400, Text("User already has a GROQ configuration"))
  const DefaultErrorType := "validation_failed"

  /** The body of a successful setup: the created row plus the validation details. */
  datatype SetupResponse = SetupResponse(
    config: LlmConfig,
    validationSuccess: bool,
    validationMessage: string,
    testResponse: string)

  /** The body of `has-llm-config`. */
  datatype HasConfigResponse = HasConfigResponse(hasConfig: bool, defaultConfig: Option<LlmConfig>)

  /** The user's configurations, in the store's order. */
  function UserConfigs(store: seq<LlmConfig>, userId: nat): (r: seq<LlmConfig>)
    ensures forall c :: c in r <==> c in store && c.userId == userId
    ensures |r| <= |store|
  {
    if store == [] then []
    else (if store[0].userId == userId then [store[0]] else []) + UserConfigs(store[1..], userId)
  }

  /** Python's `next((c for c in configs if c.is_default), None)`. */
  function FirstDefault(configs: seq<LlmConfig>): (r: Option<LlmConfig>)
    ensures r.None? <==> forall c :: c in configs ==> !c.isDefault
    ensures r.Some? ==> exists k :: 0 <= k < |configs| && configs[k] == r.value && r.value.isDefault
                                    && forall j :: 0 <= j < k ==> !configs[j].isDefault
  {
    if configs == [] then None
    else if configs[0].isDefault then Some(configs[0])
    else FirstDefault(configs[1..])
  }

  /** The user already has a configuration with the GROQ provider id. */
  predicate HasGroqConfig(store: seq<LlmConfig>, userId: nat) {
    exists c :: c in UserConfigs(store, userId) && c.providerId == GroqProviderId
  }

  /** The row the setup handler creates for a validated key. */
  function GroqConfig(id: nat, userId: nat, apiKey: string): LlmConfig {
    LlmConfig(id, userId, GroqProviderId, DefaultModel, Some(apiKey), ConfigParams(0, None), true)
  }

  /** The user's first default configuration, found through their filtered list, is their first default row in store order; `k` is its index in the store. */
  lemma {:induction false} FirstDefaultOfUser(store: seq<LlmConfig>, userId: nat) returns (k: nat)
    requires FirstDefault(UserConfigs(store, userId)).Some?
    ensures k < |store| && store[k] == FirstDefault(UserConfigs(store, userId)).value
    ensures store[k].userId == userId && store[k].isDefault
    ensures forall j :: 0 <= j < k && store[j].userId == userId ==> !store[j].isDefault
  {
    var mine := UserConfigs(store, userId);
    var rest := UserConfigs(store[1..], userId);
    if store[0].userId == userId && store[0].isDefault {
      assert mine[0] == store[0];
      k := 0;
    } else {
      assert FirstDefault(mine) == FirstDefault(rest) by {
        if store[0].userId == userId {
          assert mine == [store[0]] + rest;
          assert mine[1..] == rest;
        } else {
          assert mine == rest;
        }
      }
      var k' := FirstDefaultOfUser(store[1..], userId);
      k := k' + 1;
      forall j | 0 <= j < k && store[j].userId == userId ensures !store[j].isDefault {
        if j > 0 {
          assert store[j] == store[1..][j - 1];
        }
      }
    }
  }

  lemma FirstDefaultInStore(store: seq<LlmConfig>, userId: nat)
    ensures FirstDefault(UserConfigs(store, userId)).Some? ==>
              exists k :: 0 <= k < |store| && store[k] == FirstDefault(UserConfigs(store, userId)).value
                          && store[k].userId == userId && store[k].isDefault
                          && forall j :: 0 <= j < k && store[j].userId == userId ==> !store[j].isDefault
  {
    if FirstDefault(UserConfigs(store, userId)).Some? {
      var k := FirstDefaultOfUser(store, userId);
    }
  }

  /**
    `check_user_has_llm_config`: the user has a configuration iff any row is theirs,
    and the default reported is their first row marked default, if any.
   */
  function CheckUserHasLlmConfig(store: seq<LlmConfig>, userId: nat): (r: HasConfigResponse)
    ensures r.hasConfig <==> exists c :: c in store && c.userId == userId
    ensures r.defaultConfig.None? <==> forall c :: c in store && c.userId == userId ==> !c.isDefault
    ensures r.defaultConfig.Some? ==>
              exists k :: 0 <= k < |store| && store[k] == r.defaultConfig.value
                          && store[k].userId == userId && store[k].isDefault
                          && forall j :: 0 <= j < k && store[j].userId == userId ==> !store[j].isDefault
  {
    var configs := UserConfigs(store, userId);
    if |configs| > 0 then
      FirstDefaultInStore(store, userId);
      HasConfigResponse(true, FirstDefault(configs))
    else
      assert forall c :: c in store && c.userId == userId ==> c in configs;
      HasConfigResponse(false, None)
  }

  /** After the setup handler adds its row, the user has a configuration and a default one, and a second setup is refused. */
  lemma {:induction false} SetupRowIsVisible(store: seq<LlmConfig>, id: nat, userId: nat, apiKey: string)
    ensures CheckUserHasLlmConfig(store + [GroqConfig(id, userId, apiKey)], userId).hasConfig
    ensures CheckUserHasLlmConfig(store + [GroqConfig(id, userId, apiKey)], userId).defaultConfig.Some?
    ensures HasGroqConfig(store + [GroqConfig(id, userId, apiKey)], userId)
  {
    var c := GroqConfig(id, userId, apiKey);
    var after := store + [c];
    assert after[|store|] == c;
    assert c in UserConfigs(after, userId);
  }

  class ConfigStore {
    var configs: seq<LlmConfig>
    /** The next primary key the database hands out. */
    var nextId: nat

    /**
      Every row's id was handed out before `nextId`, and no two rows share an
      id, so the id of a created row is fresh.
     */
    ghost predicate Valid()
      reads this
    {
      (forall k :: 0 <= k < |configs| ==> configs[k].id < nextId)
      && (forall j, k :: 0 <= j < k < |configs| ==> configs[j].id != configs[k].id)
    }

    constructor ()
      ensures Valid() && configs == [] && nextId == 0
    {
      configs := [];
      nextId := 0;
    }

    /**
      `setup_default_groq_config`: refuse a second GROQ configuration, then
      validate the key, and only for a valid key add one default GROQ row.
     */
    method SetupDefaultGroq(userId: nat, apiKey: string, outcome: LlmOutcome) returns (r: Result<SetupResponse, HttpError>)
      requires Valid()
      modifies this
      ensures Valid()
      ensures HasGroqConfig(old(configs), userId) ==>
                r == Err(AlreadyConfigured) && configs == old(configs) && nextId == old(nextId)
      ensures !HasGroqConfig(old(configs), userId) ==>
                var v := ValidateGroqApiKey(apiKey, DefaultModel, outcome);
                if v.valid then
                  configs == old(configs) + [GroqConfig(old(nextId), userId, apiKey)] && nextId == old(nextId) + 1
                  && r == Ok(SetupResponse(GroqConfig(old(nextId), userId, apiKey), true, v.message, v.testResponse.GetOr("")))
                else
                  configs == old(configs) && nextId == old(nextId)
                  && r == Err(HttpError(400, Rejection(v.message, v.errorType.GetOr(DefaultErrorType))))
    {
      if HasGroqConfig(configs, userId) {
        return Err(AlreadyConfigured);
      }
      var validation := ValidateGroqApiKey(apiKey, DefaultModel, outcome);
      if !validation.valid {
        return Err(HttpError(400, Rejection(validation.message, validation.errorType.GetOr(DefaultErrorType))));
      }
      var created := GroqConfig(nextId, userId, apiKey);
      configs := configs + [created];
      nextId := nextId + 1;
      r := Ok(SetupResponse(created, true, validation.message, validation.testResponse.GetOr("")));
    }
  }
}
