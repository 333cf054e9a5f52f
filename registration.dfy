/**
 * The registration behaviours of an agent.
 *
 * `RegistrationBaseBehaviour` builds the registration payload from the period
 * state's `initial_data` (serialised with sorted keys, or nothing when the
 * data are empty) and submits it.
 *
 * `RegistrationStartupBehaviour` is a re-entrant step that, before
 * submitting, fetches the local Tendermint configuration, reads the agents
 * registered for the service from the on-chain registry, asks every
 * registered peer for its Tendermint address, writes the peers into the local
 * configuration and restarts the local node. Each gate is tested again on
 * every entry, and any failing call sleeps and returns.
 *
 * The results of the HTTP and contract calls a step makes are inputs of the
 * step (`Env`); every call the step makes is recorded, in order, in its trace.
 */
module Registration {
  import opened Wrappers
  import opened Strings

  type Address = string
  type Url = string

  // ---------------------------------------------------------------------------
  // Initial data and its serialisation

  /** The values `initial_data` holds. */
  datatype InitValue =
    | Null
    | Text(s: string)
    | Number(i: int)
      /** the `registered_addresses` table: agent address to Tendermint URL, if known */
    | AddressTable(entries: map<Address, Option<Url>>)

  /** A JSON document; the members of an object keep the order they are written in. */
  datatype Json = JNull | JString(s: string) | JNumber(i: int) | JObject(members: seq<(string, Json)>)

  /** The entries of `m` for `keys`, in the order of `keys`. */
  function Entries<T>(keys: seq<string>, m: map<string, T>): (r: seq<(string, T)>)
    requires forall k | k in keys :: k in m
    ensures |r| == |keys|
    ensures forall i | 0 <= i < |r| :: r[i] == (keys[i], m[keys[i]])
    decreases |keys|
  {
    if keys == [] then [] else [(keys[0], m[keys[0]])] + Entries(keys[1..], m)
  }

  /** The object the members of a JSON object denote; a later member wins. */
  function ToMap<T>(ps: seq<(string, T)>): map<string, T>
    decreases |ps|
  {
    if ps == [] then map[] else ToMap(ps[..|ps| - 1])[ps[|ps| - 1].0 := ps[|ps| - 1].1]
  }

  /** Reading back the entries of a map, written in sorted key order, gives the map. */
  lemma {:induction false} ToMapOfEntries<T>(keys: seq<string>, m: map<string, T>)
    requires forall k | k in keys :: k in m
    ensures forall k :: k in ToMap(Entries(keys, m)) <==> k in keys
    ensures forall k | k in ToMap(Entries(keys, m)) :: ToMap(Entries(keys, m))[k] == m[k]
    decreases |keys|
  {
    if keys != [] {
      var init, last := keys[..|keys| - 1], keys[|keys| - 1];
      assert keys == init + [last];
      assert forall k | k in init :: k in keys;
      ToMapOfEntries(init, m);
      var before := ToMap(Entries(init, m));
      EntriesSnoc(init, last, m);
      ToMapSnoc(Entries(init, m), (last, m[last]));
      var after := ToMap(Entries(keys, m));
      assert after == before[last := m[last]];
      forall k ensures k in after <==> k in keys {
        assert k in keys <==> k in init || k == last;
      }
      forall k | k in after ensures after[k] == m[k] {
        if k != last {
          assert k in before;
        }
      }
    }
  }

  /** The entries for some keys and then one more. */
  lemma EntriesSnoc<T>(init: seq<string>, last: string, m: map<string, T>)
    requires forall k | k in init + [last] :: k in m
    ensures Entries(init + [last], m) == Entries(init, m) + [(last, m[last])]
  {
    assert forall k | k in init :: k in init + [last];
  }

  /** A member written after the others overrides them. */
  lemma ToMapSnoc<T>(ps: seq<(string, T)>, p: (string, T))
    ensures ToMap(ps + [p]) == ToMap(ps)[p.0 := p.1]
  {
    assert (ps + [p])[..|ps|] == ps;
  }

  lemma SortedEntriesRoundTrip<T>(m: map<string, T>)
    ensures ToMap(Entries(SortedKeys(m.Keys), m)) == m
  {
    ToMapOfEntries(SortedKeys(m.Keys), m);
  }

  function EncodeUrl(u: Option<Url>): Json
  {
    if u.None? then JNull else JString(u.value)
  }

  /** The members written for a table: each agent's URL, or null, in the order of `keys`. */
  function UrlMembers(keys: seq<Address>, entries: map<Address, Option<Url>>): seq<(string, Json)>
    requires forall k | k in keys :: k in entries
    decreases |keys|
  {
    if keys == [] then [] else [(keys[0], EncodeUrl(entries[keys[0]]))] + UrlMembers(keys[1..], entries)
  }

  /** `json.dumps(..., sort_keys=True)` of one value: tables are written in key order. */
  function Encode(v: InitValue): Json
  {
    match v
    case Null => JNull
    case Text(s) => JString(s)
    case Number(i) => JNumber(i)
    case AddressTable(entries) => JObject(UrlMembers(SortedKeys(entries.Keys), entries))
  }

  /** The members written for the initial data, in the order of `keys`. */
  function DataMembers(keys: seq<string>, data: map<string, InitValue>): seq<(string, Json)>
    requires forall k | k in keys :: k in data
    decreases |keys|
  {
    if keys == [] then [] else [(keys[0], Encode(data[keys[0]]))] + DataMembers(keys[1..], data)
  }

  /** `json.dumps(initial_data, sort_keys=True)`. */
  function Dumps(data: map<string, InitValue>): (j: Json)
    ensures j.JObject?
  {
    JObject(DataMembers(SortedKeys(data.Keys), data))
  }

  lemma {:induction false} UrlMembersAreEntries(keys: seq<Address>, entries: map<Address, Option<Url>>)
    requires forall k | k in keys :: k in entries
    ensures UrlMembers(keys, entries) == Entries(keys, EncodeUrls(entries))
    decreases |keys|
  {
    if keys != [] {
      assert forall k | k in keys[1..] :: k in keys;
      UrlMembersAreEntries(keys[1..], entries);
    }
  }

  lemma {:induction false} DataMembersAreEntries(keys: seq<string>, data: map<string, InitValue>)
    requires forall k | k in keys :: k in data
    ensures DataMembers(keys, data) == Entries(keys, EncodeData(data))
    decreases |keys|
  {
    if keys != [] {
      assert forall k | k in keys[1..] :: k in keys;
      DataMembersAreEntries(keys[1..], data);
    }
  }

  /** An object whose every member is a URL or null. */
  predicate IsUrlTable(raw: map<string, Json>)
  {
    forall a | a in raw :: raw[a].JNull? || raw[a].JString?
  }

  function DecodeUrl(j: Json): Option<Url>
  {
    if j.JString? then Some(j.s) else None
  }

  /** Reading one value back (`json.loads`). */
  function Decode(j: Json): Option<InitValue>
  {
    match j
    case JNull => Some(Null)
    case JString(s) => Some(Text(s))
    case JNumber(i) => Some(Number(i))
    case JObject(ms) =>
      var raw := ToMap(ms);
      if IsUrlTable(raw) then Some(AddressTable(map a | a in raw :: DecodeUrl(raw[a]))) else None
  }

  /** Reading an initialisation document back into `initial_data`. */
  function Loads(j: Json): Option<map<string, InitValue>>
  {
    match j
    case JObject(ms) =>
      var raw := ToMap(ms);
      if forall k | k in raw :: Decode(raw[k]).Some? then Some(map k | k in raw :: Decode(raw[k]).value)
      else None
    case _ => None
  }

  lemma DecodeEncode(v: InitValue)
    ensures Decode(Encode(v)) == Some(v)
  {
    if v.AddressTable? {
      DecodeEncodeTable(v.entries);
    }
  }

  /** The JSON value written for each agent of a table. */
  function EncodeUrls(entries: map<Address, Option<Url>>): (urls: map<string, Json>)
    ensures urls.Keys == entries.Keys
  {
    map a | a in entries :: EncodeUrl(entries[a])
  }

  lemma EncodeTableEntries(entries: map<Address, Option<Url>>)
    ensures Encode(AddressTable(entries)) == JObject(Entries(SortedKeys(entries.Keys), EncodeUrls(entries)))
  {
    UrlMembersAreEntries(SortedKeys(entries.Keys), entries);
  }

  lemma DecodeUrls(entries: map<Address, Option<Url>>)
    ensures IsUrlTable(EncodeUrls(entries))
    ensures (map a | a in EncodeUrls(entries) :: DecodeUrl(EncodeUrls(entries)[a])) == entries
  {
  }

  lemma DecodeEncodeTable(entries: map<Address, Option<Url>>)
    ensures Decode(Encode(AddressTable(entries))) == Some(AddressTable(entries))
  {
    var urls := EncodeUrls(entries);
    var ms := Entries(SortedKeys(urls.Keys), urls);
    EncodeTableEntries(entries);
    SortedEntriesRoundTrip(urls);
    DecodeUrls(entries);
    DecodeUrlTable(ms, urls);
  }

  lemma DecodeUrlTable(ms: seq<(string, Json)>, urls: map<string, Json>)
    requires ToMap(ms) == urls
    requires IsUrlTable(urls)
    ensures Decode(JObject(ms)) == Some(AddressTable(map a | a in urls :: DecodeUrl(urls[a])))
  {
  }

  /** The keys of an object's members, in order. */
  function MemberKeys<T>(ps: seq<(string, T)>): (r: seq<string>)
    ensures |r| == |ps| && forall i | 0 <= i < |ps| :: r[i] == ps[i].0
  {
    seq(|ps|, i requires 0 <= i < |ps| => ps[i].0)
  }

  /** The members of `Dumps(data)` are the keys of `data`, each once, in strictly increasing order. */
  lemma DumpsSortsKeys(data: map<string, InitValue>)
    ensures var ms := Dumps(data).members;
      && StrictlySorted(MemberKeys(ms))
      && |ms| == |data|
      && (forall k :: k in data <==> k in MemberKeys(ms))
      && (forall i | 0 <= i < |ms| :: ms[i].0 in data && ms[i].1 == Encode(data[ms[i].0]))
  {
    var encoded := EncodeData(data);
    assert |data.Keys| == |data|;
    var keys := SortedKeys(encoded.Keys);
    var ms := Dumps(data).members;
    assert ms == Entries(keys, encoded) by {
      DataMembersAreEntries(keys, data);
    }
    assert MemberKeys(ms) == keys;
  }

  /** The JSON value written for each key of the initial data. */
  function EncodeData(data: map<string, InitValue>): (encoded: map<string, Json>)
    ensures encoded.Keys == data.Keys
  {
    map k | k in data :: Encode(data[k])
  }

  lemma DumpsEntries(data: map<string, InitValue>)
    ensures Dumps(data) == JObject(Entries(SortedKeys(data.Keys), EncodeData(data)))
  {
    DataMembersAreEntries(SortedKeys(data.Keys), data);
  }

  lemma DecodeData(data: map<string, InitValue>)
    ensures forall k | k in EncodeData(data) :: Decode(EncodeData(data)[k]).Some?
    ensures (map k | k in EncodeData(data) :: Decode(EncodeData(data)[k]).value) == data
  {
    forall k | k in data
      ensures Decode(EncodeData(data)[k]) == Some(data[k])
    {
      DecodeEncode(data[k]);
    }
  }

  /** `json.loads(json.dumps(initial_data))` gives back `initial_data`. */
  lemma LoadsDumps(data: map<string, InitValue>)
    ensures Loads(Dumps(data)) == Some(data)
  {
    var encoded := EncodeData(data);
    var ms := Entries(SortedKeys(encoded.Keys), encoded);
    DumpsEntries(data);
    SortedEntriesRoundTrip(encoded);
    DecodeData(data);
    LoadsObject(ms, encoded);
  }

  lemma LoadsObject(ms: seq<(string, Json)>, raw: map<string, Json>)
    requires ToMap(ms) == raw
    requires forall k | k in raw :: Decode(raw[k]).Some?
    ensures Loads(JObject(ms)) == Some(map k | k in raw :: Decode(raw[k]).value)
  {
  }

  /** The registration payload: the agent's address and its serialised initial data. */
  datatype RegistrationPayload = RegistrationPayload(sender: Address, initialisation: Option<Json>)

  /** `RegistrationBaseBehaviour.async_act`: the payload it builds. */
  function MakePayload(agentAddress: Address, initialData: map<string, InitValue>): RegistrationPayload
  {
    if initialData != map[] then RegistrationPayload(agentAddress, Some(Dumps(initialData)))
    else RegistrationPayload(agentAddress, None)
  }

  /**
   * The payload carries the agent's address, and no initialisation exactly
   * when the initial data are empty; otherwise reading the initialisation
   * back gives the initial data, whose keys it lists in sorted order.
   */
  lemma PayloadContents(agentAddress: Address, initialData: map<string, InitValue>)
    ensures var p := MakePayload(agentAddress, initialData);
      && p.sender == agentAddress
      && (p.initialisation.None? <==> initialData == map[])
      && (p.initialisation.Some? ==>
            && Loads(p.initialisation.value) == Some(initialData)
            && p.initialisation.value.JObject?
            && StrictlySorted(MemberKeys(p.initialisation.value.members)))
  {
    if initialData != map[] {
      LoadsDumps(initialData);
      DumpsSortsKeys(initialData);
    }
  }

  // ---------------------------------------------------------------------------
  // The startup step: inputs, effects, outcomes

  const REGISTERED_ADDRESSES := "registered_addresses"
  const P2P_SEEDS := "p2p_seeds"
  const HTTP_OK := 200

  /** Values of the local Tendermint parameters. */
  datatype Param =
    | PText(s: string)
      /** `list(table.values())`: the seed list taken from a table of registered agents */
    | PSeeds(table: map<Address, Option<Url>>)
    | PFlag(b: bool)
    | PNone

  type TendermintParams = map<string, Param>

  /** The body of the reply to the configuration request. */
  datatype ConfigReply = ConfigMalformed | ConfigParams(params: TendermintParams)

  /** The body of the reply to the update and start requests. */
  datatype StatusReply = StatusMalformed | StatusBody(status: Option<int>)

  /** What `get_service_info` returns (an empty one when the call fails). */
  datatype ServiceInfo =
    | EmptyInfo
      /** a non-empty info without `agent_instances` */
    | InfoWithoutInstances
    | InfoWith(agentInstances: seq<Address>)

  /** The results of the calls a step may make; a step reads only those it reaches. */
  datatype Env = Env(
    config: ConfigReply,
    verified: bool,
    serviceInfo: ServiceInfo,
    update: StatusReply,
    start: StatusReply)

  /** The calls a step makes, in order. */
  datatype Effect =
    | FetchConfig
    | VerifyContract
    | GetServiceInfo
      /** one Tendermint request to each of these agents, in the order the set iterates */
    | PeerRequests(to: set<Address>)
      /** the POST of these parameters to the local node */
    | UpdateConfig(params: TendermintParams)
    | StartNode
    | Sleep
      /** the send of `MakePayload(sender, initialData)` and the wait for the round to end */
    | SubmitRegistration(sender: Address, initialData: map<string, InitValue>)

  datatype StartupError =
      /** RuntimeError: no service registry address configured */
    | NoRegistryAddress
      /** KeyError: the service info has no `agent_instances` */
    | MissingAgentInstances
      /** KeyError: the update reply has no `status` */
    | MissingStatus
      /** TypeError: `set()` of a `registered_addresses` value that is a number or null */
    | NotIterable
      /** AttributeError: `.values()` of a `registered_addresses` value that is not a table */
    | NoValues

  datatype Outcome = Completed | Retry | Raised(error: StartupError)

  /** The agent's own settings. */
  datatype Settings = Settings(agentAddress: Address, tendermintUrl: Url, serviceRegistryAddress: Option<Address>)

  /** The state a startup step reads and writes; `outbox` counts the Tendermint requests sent to each agent. */
  datatype StartupState = StartupState(
    localTendermintParams: Option<TendermintParams>,
    initialData: map<string, InitValue>,
    collected: map<Address, Url>,
    outbox: multiset<Address>)

  datatype StepResult = StepResult(state: StartupState, trace: seq<Effect>, outcome: Outcome)

  /** Python's `not params`: unset or empty. */
  predicate Falsy(p: Option<TendermintParams>)
  {
    p.None? || p.value == map[]
  }

  /** `initial_data.get("registered_addresses", {})`: the stored value, or an empty table. */
  function RegisteredValue(data: map<string, InitValue>): InitValue
  {
    if REGISTERED_ADDRESSES in data then data[REGISTERED_ADDRESSES] else AddressTable(map[])
  }

  /** Python's truth value of a value of the initial data. */
  predicate Truthy(v: InitValue)
  {
    match v
    case Null => false
    case Text(s) => s != ""
    case Number(i) => i != 0
    case AddressTable(entries) => entries != map[]
  }

  /** `set(v)`: a table's keys or a text's one-character strings; a number or null is not iterable. */
  function Members(v: InitValue): Result<set<string>, StartupError>
  {
    match v
    case Text(s) => Ok(set i | 0 <= i < |s| :: [s[i]])
    case AddressTable(entries) => Ok(entries.Keys)
    case _ => Err(NotIterable)
  }

  /**
   * `set(v)` raises exactly for a number or null; where it does not raise,
   * `not v` holds exactly when the set is empty, so a text that is not empty
   * is iterated as its characters.
   */
  lemma TruthyIffMembers(v: InitValue)
    ensures Members(v).Err? <==> v.Null? || v.Number?
    ensures Members(v).Err? ==> Members(v).error == NotIterable
    ensures Members(v).Ok? ==> (Truthy(v) <==> Members(v).value != {})
    ensures v.Text? ==> forall i | 0 <= i < |v.s| :: [v.s[i]] in Members(v).value
  {
    if v.Text? && v.s != "" {
      assert [v.s[0]] in Members(v).value;
    }
  }

  /** `list(v.values())`: the seed list of a table; any other value has no `values`. */
  function Seeds(v: InitValue): (r: Result<Param, StartupError>)
    ensures r.Ok? <==> v.AddressTable?
    ensures r.Ok? ==> r.value == PSeeds(v.entries)
    ensures r.Err? ==> r.error == NoValues
  {
    if v.AddressTable? then Ok(PSeeds(v.entries)) else Err(NoValues)
  }

  /** The `registered_addresses` value of the data is a table. */
  predicate HoldsTable(data: map<string, InitValue>)
  {
    RegisteredValue(data).AddressTable?
  }

  /** The agents of the `registered_addresses` table, when the value is one. */
  function TableKeys(data: map<string, InitValue>): set<Address>
    requires HoldsTable(data)
  {
    RegisteredValue(data).entries.Keys
  }

  /** `set(self.registered_addresses)` for the state's data. */
  function RegisteredSet(s: StartupState): Result<set<Address>, StartupError>
  {
    Members(RegisteredValue(s.initialData))
  }

  /** The set of a list's elements. */
  function Elements(s: seq<Address>): set<Address>
  {
    set i | 0 <= i < |s| :: s[i]
  }

  /** The new `registered_addresses` table: every instance, the agent's own URL and no other. */
  function AddressTableFor(instances: set<Address>, me: Address, url: Url): (t: map<Address, Option<Url>>)
    requires me in instances
    ensures t.Keys == instances
    ensures t[me] == Some(url)
    ensures forall a | a in t && a != me :: t[a] == None
  {
    map a | a in instances :: if a == me then Some(url) else None
  }

  datatype AddressesResult = AddressesResult(trace: seq<Effect>, result: Result<bool, StartupError>, data: map<string, InitValue>)

  /** `get_addresses`: reads the registry and records the registered agents. */
  function GetAddresses(settings: Settings, data: map<string, InitValue>, env: Env): (r: AddressesResult)
    ensures forall x | x in r.trace :: x == VerifyContract || x == GetServiceInfo
    ensures r.result != Ok(true) ==> r.data == data
    ensures r.result == Ok(true) ==> HoldsTable(r.data) && settings.agentAddress in TableKeys(r.data)
  {
    if settings.serviceRegistryAddress.None? then AddressesResult([], Err(NoRegistryAddress), data)
    else if !env.verified then AddressesResult([VerifyContract], Ok(false), data)
    else
      var trace := [VerifyContract, GetServiceInfo];
      match env.serviceInfo
      case EmptyInfo => AddressesResult(trace, Ok(false), data)
      case InfoWithoutInstances => AddressesResult(trace, Err(MissingAgentInstances), data)
      case InfoWith(list) =>
        var registered := Elements(list);
        if registered == {} || settings.agentAddress !in registered then AddressesResult(trace, Ok(false), data)
        else
          var table := AddressTableFor(registered, settings.agentAddress, settings.tendermintUrl);
          AddressesResult(trace, Ok(true), data[REGISTERED_ADDRESSES := AddressTable(table)])
  }

  /** `get_addresses` raises exactly when no registry is configured or the info lacks the instances. */
  lemma GetAddressesRaises(settings: Settings, data: map<string, InitValue>, env: Env)
    ensures GetAddresses(settings, data, env).result.Err? <==>
      settings.serviceRegistryAddress.None? || (env.verified && env.serviceInfo.InfoWithoutInstances?)
    ensures settings.serviceRegistryAddress.None? ==>
      GetAddresses(settings, data, env) == AddressesResult([], Err(NoRegistryAddress), data)
  {
  }

  /**
   * `get_addresses` fails and leaves the data alone when the contract is not
   * verified, the info is empty, no instance is registered, or the agent is
   * not among them; otherwise it records exactly the registered instances.
   */
  lemma GetAddressesOutcome(settings: Settings, data: map<string, InitValue>, env: Env)
    requires settings.serviceRegistryAddress.Some?
    requires !(env.verified && env.serviceInfo.InfoWithoutInstances?)
    ensures var r := GetAddresses(settings, data, env);
      r.result.Ok? &&
      (r.result.value <==> env.verified && env.serviceInfo.InfoWith? &&
                           settings.agentAddress in Elements(env.serviceInfo.agentInstances))
    ensures var r := GetAddresses(settings, data, env);
      r.result == Ok(false) ==> r.data == data
    ensures var r := GetAddresses(settings, data, env);
      r.result == Ok(true) ==>
        && r.data.Keys == data.Keys + {REGISTERED_ADDRESSES}
        && (forall k | k in data && k != REGISTERED_ADDRESSES :: r.data[k] == data[k])
        && HoldsTable(r.data)
        && var table := RegisteredValue(r.data).entries;
           && table.Keys == Elements(env.serviceInfo.agentInstances)
           && table[settings.agentAddress] == Some(settings.tendermintUrl)
           && forall a | a in table && a != settings.agentAddress :: table[a] == None
  {
  }

  /** The addresses a step asks for their Tendermint configuration. */
  function NotYetCollected(s: StartupState): set<Address>
    requires RegisteredSet(s).Ok?
  {
    RegisteredSet(s).value - s.collected.Keys
  }

  /** The success of the update request; a reply without `status` raises. */
  function UpdateSucceeded(reply: StatusReply): (r: Result<bool, StartupError>)
    ensures r == Ok(true) <==> reply == StatusBody(Some(HTTP_OK))
    ensures r.Err? <==> reply == StatusBody(None)
    ensures r.Err? ==> r.error == MissingStatus
  {
    match reply
    case StatusMalformed => Ok(false)
    case StatusBody(None) => Err(MissingStatus)
    case StatusBody(Some(status)) => Ok(status == HTTP_OK)
  }

  /** `start_tendermint`: whether it succeeded; it sleeps itself on every failure. */
  function StartSucceeded(reply: StatusReply): bool
  {
    reply == StatusBody(Some(HTTP_OK))
  }

  /** The parameters posted to the local node: the held ones with the seeds written in. */
  function SeededParams(s: StartupState): TendermintParams
    requires s.localTendermintParams.Some? && HoldsTable(s.initialData)
  {
    s.localTendermintParams.value[P2P_SEEDS := Seeds(RegisteredValue(s.initialData)).value]
  }

  /**
   * The last stages: write the seeds, post the configuration, restart the
   * node and submit. The seed list is read before anything is written.
   */
  function Configure(settings: Settings, s: StartupState, env: Env): StepResult
    requires s.localTendermintParams.Some?
  {
    match Seeds(RegisteredValue(s.initialData))
    case Err(e) => StepResult(s, [], Raised(e))
    case Ok(_) =>
      var params := SeededParams(s);
      var s1 := s.(localTendermintParams := Some(params));
      match UpdateSucceeded(env.update)
      case Err(e) => StepResult(s1, [UpdateConfig(params)], Raised(e))
      case Ok(false) => StepResult(s1, [UpdateConfig(params), Sleep], Retry)
      case Ok(true) =>
        if !StartSucceeded(env.start) then
          // `start_tendermint` sleeps, and so does the step
          StepResult(s1, [UpdateConfig(params), StartNode, Sleep, Sleep], Retry)
        else StepResult(s1, [UpdateConfig(params), StartNode, SubmitRegistration(settings.agentAddress, s.initialData)], Completed)
  }

  /** Ask every registered agent not collected yet; go on only when there is none. */
  function Collect(settings: Settings, s: StartupState, env: Env): StepResult
    requires s.localTendermintParams.Some?
  {
    match RegisteredSet(s)
    case Err(e) => StepResult(s, [], Raised(e))
    case Ok(_) =>
      var missing := NotYetCollected(s);
      if missing != {} then
        StepResult(s.(outbox := s.outbox + multiset(missing)), [PeerRequests(missing), Sleep], Retry)
      else Configure(settings, s, env)
  }

  /**
   * What the configuration and registry stages leave: a step that has
   * finished, or the calls made so far and the state collecting starts from.
   */
  datatype Prepared = Stop(result: StepResult) | Go(pre: seq<Effect>, state: StartupState)

  /** Make the registry calls while `registered_addresses` is falsy. */
  function Register(settings: Settings, s: StartupState, pre: seq<Effect>, env: Env): Prepared
    requires s.localTendermintParams.Some?
  {
    if Truthy(RegisteredValue(s.initialData)) then Go(pre, s)
    else
      var g := GetAddresses(settings, s.initialData, env);
      if g.result.Err? then Stop(StepResult(s, pre + g.trace, Raised(g.result.error)))
      else if !g.result.value then Stop(StepResult(s, pre + g.trace + [Sleep], Retry))
      else Go(pre + g.trace, s.(initialData := g.data))
  }

  /** Collect the agent's own Tendermint configuration, then make the registry calls. */
  function Prepare(settings: Settings, s: StartupState, env: Env): Prepared
  {
    if !Falsy(s.localTendermintParams) then Register(settings, s, [], env)
    else
      match env.config
      case ConfigMalformed => Stop(StepResult(s, [FetchConfig, Sleep], Retry))
      case ConfigParams(p) => Register(settings, s.(localTendermintParams := Some(p)), [FetchConfig], env)
  }

  /** `RegistrationStartupBehaviour.async_act`: one entry of the step. */
  function Step(settings: Settings, s: StartupState, env: Env): StepResult
  {
    match Prepare(settings, s, env)
    case Stop(r) => r
    case Go(pre, s2) =>
      var r := Collect(settings, s2, env);
      r.(trace := pre + r.trace)
  }

  // ---------------------------------------------------------------------------
  // Properties of the stages

  lemma ConcatSuffix<T>(a: seq<T>, b: seq<T>, k: nat)
    requires k <= |b|
    ensures (a + b)[|a + b| - k..] == b[|b| - k..]
  {
  }

  /**
   * The last stages raise at once, changing nothing, when the
   * `registered_addresses` value is not a table; otherwise they write the
   * seeds into the local parameters, change nothing else, and post them first.
   */
  lemma ConfigureKeeps(settings: Settings, s: StartupState, env: Env)
    requires s.localTendermintParams.Some?
    ensures !HoldsTable(s.initialData) ==> Configure(settings, s, env) == StepResult(s, [], Raised(NoValues))
    ensures var r := Configure(settings, s, env);
      HoldsTable(s.initialData) ==>
        && r.state == s.(localTendermintParams := Some(SeededParams(s)))
        && |r.trace| > 0 && r.trace[0] == UpdateConfig(SeededParams(s))
    ensures var r := Configure(settings, s, env);
      forall e | e in r.trace :: e.UpdateConfig? || e == StartNode || e == Sleep || e.SubmitRegistration?
  {
  }

  /** The last stages submit exactly when the value is a table and both requests reply with status 200. */
  lemma ConfigureCompletes(settings: Settings, s: StartupState, env: Env)
    requires s.localTendermintParams.Some?
    ensures var r := Configure(settings, s, env);
      r.outcome == Completed <==>
        HoldsTable(s.initialData) && env.update == StatusBody(Some(HTTP_OK)) && env.start == StatusBody(Some(HTTP_OK))
    ensures var r := Configure(settings, s, env);
      r.outcome == Completed ==>
        HoldsTable(s.initialData) &&
        r.trace == [UpdateConfig(SeededParams(s)), StartNode, SubmitRegistration(settings.agentAddress, s.initialData)]
    ensures var r := Configure(settings, s, env);
      r.outcome == Retry ==> r.trace[|r.trace| - 1] == Sleep && forall e | e in r.trace :: !e.SubmitRegistration?
  {
    match env.update
    case StatusMalformed =>
    case StatusBody(st) =>
      if st.Some? && st.value == HTTP_OK {
        assert env.update == StatusBody(Some(HTTP_OK));
      }
  }

  lemma ConfigureStart(settings: Settings, s: StartupState, env: Env)
    requires s.localTendermintParams.Some?
    requires StartNode in Configure(settings, s, env).trace
    ensures HoldsTable(s.initialData) && env.update == StatusBody(Some(HTTP_OK))
    ensures !StartSucceeded(env.start) ==>
      Configure(settings, s, env).outcome == Retry && Configure(settings, s, env).trace[1..] == [StartNode, Sleep, Sleep]
  {
  }

  /** Collecting raises at once, changing nothing, when the value cannot be iterated. */
  lemma CollectRaises(settings: Settings, s: StartupState, env: Env)
    requires s.localTendermintParams.Some?
    requires RegisteredSet(s).Err?
    ensures Collect(settings, s, env) == StepResult(s, [], Raised(NotIterable))
  {
    TruthyIffMembers(RegisteredValue(s.initialData));
  }

  lemma CollectWaits(settings: Settings, s: StartupState, env: Env)
    requires s.localTendermintParams.Some?
    requires RegisteredSet(s).Ok? && NotYetCollected(s) != {}
    ensures var r := Collect(settings, s, env);
      && r.outcome == Retry
      && r.state == s.(outbox := s.outbox + multiset(NotYetCollected(s)))
      && r.trace == [PeerRequests(NotYetCollected(s)), Sleep]
  {
  }

  /** Collecting makes no configuration or registry call and changes neither the data nor what was collected. */
  lemma CollectKeeps(settings: Settings, s: StartupState, env: Env)
    requires s.localTendermintParams.Some?
    ensures var r := Collect(settings, s, env);
      && r.state.initialData == s.initialData && r.state.collected == s.collected
      && r.state.localTendermintParams.Some?
      && (forall e | e in r.trace :: !e.FetchConfig? && !e.VerifyContract? && !e.GetServiceInfo?)
  {
    if RegisteredSet(s).Err? {
      CollectRaises(settings, s, env);
    } else if NotYetCollected(s) != {} {
      CollectWaits(settings, s, env);
    } else {
      ConfigureKeeps(settings, s, env);
    }
  }

  /** The first two stages let collecting start exactly when a configuration is held or fetched and the agent is registered. */
  lemma PrepareGoIff(settings: Settings, s: StartupState, env: Env)
    ensures Prepare(settings, s, env).Go? <==>
      && !(Falsy(s.localTendermintParams) && env.config.ConfigMalformed?)
      && (!Truthy(RegisteredValue(s.initialData)) ==>
            GetAddresses(settings, s.initialData, env).result == Ok(true))
  {
  }

  /**
   * Collecting starts with a configuration, a truthy `registered_addresses`
   * (a table just read from the registry when there was none), and what was
   * collected so far.
   */
  lemma PrepareGoState(settings: Settings, s: StartupState, env: Env)
    requires Prepare(settings, s, env).Go?
    ensures var p := Prepare(settings, s, env);
      && p.state.localTendermintParams.Some?
      && (!Falsy(s.localTendermintParams) ==> p.state.localTendermintParams == s.localTendermintParams)
      && p.state.collected == s.collected && p.state.outbox == s.outbox
      && Truthy(RegisteredValue(p.state.initialData))
      && (Truthy(RegisteredValue(s.initialData)) ==> p.state.initialData == s.initialData)
      && (!Truthy(RegisteredValue(s.initialData)) ==> HoldsTable(p.state.initialData))
  {
    var p := Prepare(settings, s, env);
    if !Truthy(RegisteredValue(s.initialData)) {
      assert HoldsTable(p.state.initialData);
      assert TableKeys(p.state.initialData) != {};
    }
  }

  /** Before collecting, the step makes only configuration and registry calls, each only while it is needed. */
  lemma PrepareGoCalls(settings: Settings, s: StartupState, env: Env)
    requires Prepare(settings, s, env).Go?
    ensures var p := Prepare(settings, s, env);
      && (forall x | x in p.pre :: x == FetchConfig || x == VerifyContract || x == GetServiceInfo)
      && (FetchConfig in p.pre <==> Falsy(s.localTendermintParams))
      && (Falsy(s.localTendermintParams) ==> p.pre[0] == FetchConfig)
      && (VerifyContract in p.pre || GetServiceInfo in p.pre ==> !Truthy(RegisteredValue(s.initialData)))
  {
    if !Truthy(RegisteredValue(s.initialData)) {
      var t1: seq<Effect> := if Falsy(s.localTendermintParams) then [FetchConfig] else [];
      var g := GetAddresses(settings, s.initialData, env);
      assert FetchConfig !in g.trace;
      assert FetchConfig in t1 + g.trace <==> FetchConfig in t1;
    }
  }

  /** A step that stops in the first two stages does not complete, makes no later call, and sleeps last on a retry. */
  lemma PrepareStopFacts(settings: Settings, s: StartupState, env: Env)
    requires Prepare(settings, s, env).Stop?
    ensures var r := Prepare(settings, s, env).result;
      && r == Step(settings, s, env)
      && r.outcome != Completed
      && (forall x | x in r.trace :: x == FetchConfig || x == VerifyContract || x == GetServiceInfo || x == Sleep)
      && (r.outcome == Retry ==> |r.trace| > 0 && r.trace[|r.trace| - 1] == Sleep)
      && r.state.collected == s.collected && r.state.outbox == s.outbox
      && r.state.initialData == s.initialData
      && (FetchConfig in r.trace <==> Falsy(s.localTendermintParams))
      && (Falsy(s.localTendermintParams) ==> r.trace[0] == FetchConfig)
      && (VerifyContract in r.trace || GetServiceInfo in r.trace ==> !Truthy(RegisteredValue(s.initialData)))
  {
    if !(Falsy(s.localTendermintParams) && env.config.ConfigMalformed?) && !Truthy(RegisteredValue(s.initialData)) {
      var t1: seq<Effect> := if Falsy(s.localTendermintParams) then [FetchConfig] else [];
      var g := GetAddresses(settings, s.initialData, env);
      assert FetchConfig !in g.trace;
      assert FetchConfig in t1 + g.trace <==> FetchConfig in t1;
      assert FetchConfig in t1 + g.trace + [Sleep] <==> FetchConfig in t1;
    }
  }

  // ---------------------------------------------------------------------------
  // Properties of the step

  /** A step that gets past the first two stages is its calls so far followed by collecting. */
  lemma StepOfGo(settings: Settings, s: StartupState, env: Env)
    requires Prepare(settings, s, env).Go?
    ensures var p := Prepare(settings, s, env);
      && p.state.localTendermintParams.Some?
      && var c := Collect(settings, p.state, env);
         Step(settings, s, env) == StepResult(c.state, p.pre + c.trace, c.outcome)
  {
  }

  /** A step whose `registered_addresses` cannot be iterated raises after the first two stages, asking no peer. */
  lemma UniterableStep(settings: Settings, s: StartupState, env: Env)
    requires Prepare(settings, s, env).Go?
    requires RegisteredSet(Prepare(settings, s, env).state).Err?
    ensures var p := Prepare(settings, s, env);
      Step(settings, s, env) == StepResult(p.state, p.pre, Raised(NotIterable))
  {
    StepOfGo(settings, s, env);
    CollectRaises(settings, Prepare(settings, s, env).state, env);
  }

  /** A step that finds agents not yet collected asks them, sleeps and returns. */
  lemma WaitingStep(settings: Settings, s: StartupState, env: Env)
    requires Prepare(settings, s, env).Go?
    requires RegisteredSet(Prepare(settings, s, env).state).Ok?
    requires NotYetCollected(Prepare(settings, s, env).state) != {}
    ensures var p := Prepare(settings, s, env);
      var missing := NotYetCollected(p.state);
      Step(settings, s, env) ==
        StepResult(p.state.(outbox := p.state.outbox + multiset(missing)), p.pre + [PeerRequests(missing), Sleep], Retry)
  {
    StepOfGo(settings, s, env);
    CollectWaits(settings, Prepare(settings, s, env).state, env);
  }

  /** A step that has collected every registered agent goes on to the last stages. */
  lemma ConfiguredStep(settings: Settings, s: StartupState, env: Env)
    requires Prepare(settings, s, env).Go?
    requires RegisteredSet(Prepare(settings, s, env).state).Ok?
    requires NotYetCollected(Prepare(settings, s, env).state) == {}
    ensures var p := Prepare(settings, s, env);
      && p.state.localTendermintParams.Some?
      && var c := Configure(settings, p.state, env);
         Step(settings, s, env) == StepResult(c.state, p.pre + c.trace, c.outcome)
  {
    StepOfGo(settings, s, env);
  }

  /** The configuration is fetched exactly when none is held; a failed fetch sleeps and returns at once. */
  lemma ConfigGate(settings: Settings, s: StartupState, env: Env)
    ensures var r := Step(settings, s, env);
      FetchConfig in r.trace <==> Falsy(s.localTendermintParams)
    ensures Falsy(s.localTendermintParams) ==> Step(settings, s, env).trace[0] == FetchConfig
    ensures Falsy(s.localTendermintParams) && env.config.ConfigMalformed? ==>
      Step(settings, s, env) == StepResult(s, [FetchConfig, Sleep], Retry)
  {
    if Prepare(settings, s, env).Stop? {
      PrepareStopFacts(settings, s, env);
    } else {
      var p := Prepare(settings, s, env);
      PrepareGoCalls(settings, s, env);
      StepOfGo(settings, s, env);
      CollectKeeps(settings, p.state, env);
      var c := Collect(settings, p.state, env);
      assert FetchConfig in p.pre + c.trace <==> FetchConfig in p.pre;
      assert Falsy(s.localTendermintParams) ==> (p.pre + c.trace)[0] == p.pre[0];
    }
  }

  /** The registry is queried only while `registered_addresses` is falsy. */
  lemma RegistryGate(settings: Settings, s: StartupState, env: Env)
    ensures var r := Step(settings, s, env);
      VerifyContract in r.trace || GetServiceInfo in r.trace ==> !Truthy(RegisteredValue(s.initialData))
  {
    if Prepare(settings, s, env).Stop? {
      PrepareStopFacts(settings, s, env);
    } else {
      var p := Prepare(settings, s, env);
      PrepareGoCalls(settings, s, env);
      StepOfGo(settings, s, env);
      CollectKeeps(settings, p.state, env);
      var c := Collect(settings, p.state, env);
      assert VerifyContract in p.pre + c.trace <==> VerifyContract in p.pre;
      assert GetServiceInfo in p.pre + c.trace <==> GetServiceInfo in p.pre;
    }
  }

  /**
   * What a step `r` from `s` does with the peers' Tendermint addresses: it
   * records none; when `registered_addresses` cannot be iterated it asks no
   * one; otherwise every request it sends asks exactly the registered agents
   * not yet collected, it does send them when it reaches collecting (`go`) and
   * some are missing, and then it sleeps and returns; the outbox grows by
   * those agents exactly when they are asked, and is otherwise left as it is.
   */
  ghost predicate AsksMissing(s: StartupState, r: StepResult, go: bool)
  {
    && r.state.collected == s.collected
    && (RegisteredSet(r.state).Err? ==>
          r.state.outbox == s.outbox && forall e | e in r.trace :: !e.PeerRequests?)
    && (RegisteredSet(r.state).Ok? ==>
          var missing := RegisteredSet(r.state).value - s.collected.Keys;
          && (forall e | e in r.trace && e.PeerRequests? :: e.to == missing)
          && (go && missing != {} ==>
                && PeerRequests(missing) in r.trace
                && r.outcome == Retry && r.trace[|r.trace| - 1] == Sleep)
          && (r.state.outbox == s.outbox + multiset(missing) || r.state.outbox == s.outbox)
          && (r.state.outbox != s.outbox <==> PeerRequests(missing) in r.trace))
  }

  /** A step asks exactly the registered agents not yet collected, and only when it reaches collecting. */
  lemma CollectionAsksMissing(settings: Settings, s: StartupState, env: Env)
    ensures AsksMissing(s, Step(settings, s, env), Prepare(settings, s, env).Go?)
  {
    if Prepare(settings, s, env).Stop? {
      StoppedAsksNone(settings, s, env);
    } else if RegisteredSet(Prepare(settings, s, env).state).Err? {
      UniterableAsksNone(settings, s, env);
    } else if NotYetCollected(Prepare(settings, s, env).state) != {} {
      WaitingAsksMissing(settings, s, env);
    } else {
      CollectedAsksNone(settings, s, env);
    }
  }

  lemma StoppedAsksNone(settings: Settings, s: StartupState, env: Env)
    requires Prepare(settings, s, env).Stop?
    ensures AsksMissing(s, Step(settings, s, env), false)
  {
    PrepareStopFacts(settings, s, env);
    var r := Step(settings, s, env);
    assert forall e | e in r.trace :: !e.PeerRequests?;
  }

  lemma UniterableAsksNone(settings: Settings, s: StartupState, env: Env)
    requires Prepare(settings, s, env).Go?
    requires RegisteredSet(Prepare(settings, s, env).state).Err?
    ensures AsksMissing(s, Step(settings, s, env), true)
  {
    var p := Prepare(settings, s, env);
    PrepareGoState(settings, s, env);
    PrepareGoCalls(settings, s, env);
    UniterableStep(settings, s, env);
    assert forall e | e in p.pre :: !e.PeerRequests?;
  }

  lemma WaitingAsksMissing(settings: Settings, s: StartupState, env: Env)
    requires Prepare(settings, s, env).Go?
    requires RegisteredSet(Prepare(settings, s, env).state).Ok?
    requires NotYetCollected(Prepare(settings, s, env).state) != {}
    ensures AsksMissing(s, Step(settings, s, env), true)
  {
    var p := Prepare(settings, s, env);
    var s2 := p.state;
    PrepareGoState(settings, s, env);
    PrepareGoCalls(settings, s, env);
    StepOfGo(settings, s, env);
    assert forall e | e in p.pre :: !e.PeerRequests?;
    CollectWaits(settings, s2, env);
    CollectionAsks(p.pre, s2, NotYetCollected(s2));
  }

  lemma CollectedAsksNone(settings: Settings, s: StartupState, env: Env)
    requires Prepare(settings, s, env).Go?
    requires RegisteredSet(Prepare(settings, s, env).state).Ok?
    requires NotYetCollected(Prepare(settings, s, env).state) == {}
    ensures AsksMissing(s, Step(settings, s, env), true)
  {
    var p := Prepare(settings, s, env);
    var s2 := p.state;
    PrepareGoState(settings, s, env);
    PrepareGoCalls(settings, s, env);
    StepOfGo(settings, s, env);
    assert forall e | e in p.pre :: !e.PeerRequests?;
    ConfigureKeeps(settings, s2, env);
    var c := Collect(settings, s2, env);
    assert forall e | e in c.trace :: !e.PeerRequests?;
    assert forall e | e in p.pre + c.trace :: e in p.pre || e in c.trace;
  }

  /** The calls before collecting and one round of requests to the missing agents. */
  lemma CollectionAsks(pre: seq<Effect>, s2: StartupState, missing: set<Address>)
    requires forall e | e in pre :: !e.PeerRequests?
    requires missing != {}
    ensures var trace := pre + [PeerRequests(missing), Sleep];
      && (forall e | e in trace && e.PeerRequests? :: e.to == missing)
      && PeerRequests(missing) in trace && trace[|trace| - 1] == Sleep
      && s2.outbox + multiset(missing) != s2.outbox
  {
    var a :| a in missing;
    assert a in multiset(missing);
    assert (s2.outbox + multiset(missing))[a] > s2.outbox[a];
  }

  /**
   * A step `r` from `s` posts the configuration only when
   * `registered_addresses` is a table whose every agent has been collected,
   * and then sends no request.
   */
  ghost predicate PostsOnlyCollected(s: StartupState, r: StepResult)
  {
    (exists e :: e in r.trace && e.UpdateConfig?) ==>
      HoldsTable(r.state.initialData) && TableKeys(r.state.initialData) <= s.collected.Keys && r.state.outbox == s.outbox
  }

  /** The step posts the configuration only once every registered agent has been collected. */
  lemma CollectionGate(settings: Settings, s: StartupState, env: Env)
    ensures PostsOnlyCollected(s, Step(settings, s, env))
  {
    if Prepare(settings, s, env).Stop? {
      PrepareStopFacts(settings, s, env);
    } else if RegisteredSet(Prepare(settings, s, env).state).Err? {
      PrepareGoCalls(settings, s, env);
      UniterableStep(settings, s, env);
    } else if NotYetCollected(Prepare(settings, s, env).state) != {} {
      WaitingPostsNothing(settings, s, env);
    } else {
      CollectedPosts(settings, s, env);
    }
  }

  lemma WaitingPostsNothing(settings: Settings, s: StartupState, env: Env)
    requires Prepare(settings, s, env).Go?
    requires RegisteredSet(Prepare(settings, s, env).state).Ok?
    requires NotYetCollected(Prepare(settings, s, env).state) != {}
    ensures forall e | e in Step(settings, s, env).trace :: !e.UpdateConfig?
  {
    var p := Prepare(settings, s, env);
    PrepareGoCalls(settings, s, env);
    StepOfGo(settings, s, env);
    CollectWaits(settings, p.state, env);
    assert forall e | e in p.pre + [PeerRequests(NotYetCollected(p.state)), Sleep] :: e in p.pre || e.PeerRequests? || e == Sleep;
  }

  lemma CollectedPosts(settings: Settings, s: StartupState, env: Env)
    requires Prepare(settings, s, env).Go?
    requires RegisteredSet(Prepare(settings, s, env).state).Ok?
    requires NotYetCollected(Prepare(settings, s, env).state) == {}
    ensures PostsOnlyCollected(s, Step(settings, s, env))
  {
    var p := Prepare(settings, s, env);
    var s2 := p.state;
    PrepareGoState(settings, s, env);
    PrepareGoCalls(settings, s, env);
    StepOfGo(settings, s, env);
    ConfigureKeeps(settings, s2, env);
    if HoldsTable(s2.initialData) {
      forall a | a in TableKeys(s2.initialData) ensures a in s.collected.Keys {
        assert a !in NotYetCollected(s2);
      }
    } else {
      assert forall e | e in p.pre :: !e.UpdateConfig?;
    }
  }

  /**
   * The payload is submitted exactly when every gate passes: a configuration
   * is held or fetched, registered agents are known or read from the registry,
   * `registered_addresses` is a table whose every agent has been collected,
   * and both the update and the start reply with status 200.
   */
  lemma SubmitOnlyAfterAllGates(settings: Settings, s: StartupState, env: Env)
    ensures var r := Step(settings, s, env);
      r.outcome == Completed <==>
        && !(Falsy(s.localTendermintParams) && env.config.ConfigMalformed?)
        && (!Truthy(RegisteredValue(s.initialData)) ==>
              GetAddresses(settings, s.initialData, env).result == Ok(true))
        && HoldsTable(r.state.initialData)
        && TableKeys(r.state.initialData) <= s.collected.Keys
        && env.update == StatusBody(Some(HTTP_OK))
        && env.start == StatusBody(Some(HTTP_OK))
  {
    PrepareGoIff(settings, s, env);
    if Prepare(settings, s, env).Stop? {
      PrepareStopFacts(settings, s, env);
    } else {
      var p := Prepare(settings, s, env);
      var s2 := p.state;
      PrepareGoState(settings, s, env);
      StepOfGo(settings, s, env);
      CollectKeeps(settings, s2, env);
      if RegisteredSet(s2).Err? {
        CollectRaises(settings, s2, env);
        TruthyIffMembers(RegisteredValue(s2.initialData));
      } else if NotYetCollected(s2) != {} {
        CollectWaits(settings, s2, env);
        var a :| a in NotYetCollected(s2);
        assert a !in s.collected.Keys;
        TruthyIffMembers(RegisteredValue(s2.initialData));
      } else {
        if HoldsTable(s2.initialData) {
          forall a | a in TableKeys(s2.initialData) ensures a in s.collected.Keys {
            assert a !in NotYetCollected(s2);
          }
        }
        ConfigureCompletes(settings, s2, env);
      }
    }
  }

  /**
   * A step that submits ends with the update, the start and the submission of
   * the agent's registration, sleeps nowhere, and posts the parameters it
   * keeps.
   */
  lemma SubmissionEndsStep(settings: Settings, s: StartupState, env: Env)
    requires Step(settings, s, env).outcome == Completed
    ensures var r := Step(settings, s, env);
      && r.state.localTendermintParams.Some?
      && |r.trace| >= 3
      && r.trace[|r.trace| - 3..] ==
           [UpdateConfig(r.state.localTendermintParams.value), StartNode, SubmitRegistration(settings.agentAddress, r.state.initialData)]
      && Sleep !in r.trace
  {
    if Prepare(settings, s, env).Stop? {
      PrepareStopFacts(settings, s, env);
    } else if RegisteredSet(Prepare(settings, s, env).state).Err? {
      UniterableStep(settings, s, env);
    } else if NotYetCollected(Prepare(settings, s, env).state) != {} {
      WaitingStep(settings, s, env);
    } else {
      ConfiguredSubmission(settings, s, env);
    }
  }

  lemma ConfiguredSubmission(settings: Settings, s: StartupState, env: Env)
    requires Prepare(settings, s, env).Go?
    requires RegisteredSet(Prepare(settings, s, env).state).Ok?
    requires NotYetCollected(Prepare(settings, s, env).state) == {}
    requires Configure(settings, Prepare(settings, s, env).state, env).outcome == Completed
    ensures var r := Step(settings, s, env);
      && r.state.localTendermintParams.Some?
      && |r.trace| >= 3
      && r.trace[|r.trace| - 3..] ==
           [UpdateConfig(r.state.localTendermintParams.value), StartNode, SubmitRegistration(settings.agentAddress, r.state.initialData)]
      && Sleep !in r.trace
  {
    var p := Prepare(settings, s, env);
    ConfiguredStep(settings, s, env);
    PrepareGoCalls(settings, s, env);
    var c := Configure(settings, p.state, env);
    ConfigureKeeps(settings, p.state, env);
    ConfigureCompletes(settings, p.state, env);
    ConcatSuffix(p.pre, c.trace, 3);
    assert Sleep !in p.pre;
    assert Sleep !in c.trace;
  }

  /** A step that submits keeps, as its local parameters, the held ones with the registered agents as the seeds. */
  lemma SubmissionSeeds(settings: Settings, s: StartupState, env: Env)
    requires Step(settings, s, env).outcome == Completed
    ensures var r := Step(settings, s, env);
      && r.state.localTendermintParams.Some?
      && HoldsTable(r.state.initialData)
      && var params := r.state.localTendermintParams.value;
      && P2P_SEEDS in params && params[P2P_SEEDS] == PSeeds(RegisteredValue(r.state.initialData).entries)
      && forall k | k in params && k != P2P_SEEDS :: k in Prepare(settings, s, env).state.localTendermintParams.value
  {
    if Prepare(settings, s, env).Stop? {
      PrepareStopFacts(settings, s, env);
    } else {
      var p := Prepare(settings, s, env);
      var s2 := p.state;
      StepOfGo(settings, s, env);
      if RegisteredSet(s2).Err? {
        CollectRaises(settings, s2, env);
      } else if NotYetCollected(s2) != {} {
        CollectWaits(settings, s2, env);
      } else {
        ConfigureKeeps(settings, s2, env);
        ConfigureCompletes(settings, s2, env);
      }
    }
  }

  /** A step that does not finish sleeps last and submits nothing. */
  lemma RetrySleepsLast(settings: Settings, s: StartupState, env: Env)
    requires Step(settings, s, env).outcome == Retry
    ensures var r := Step(settings, s, env);
      r.trace[|r.trace| - 1] == Sleep && forall e | e in r.trace :: !e.SubmitRegistration?
  {
    if Prepare(settings, s, env).Stop? {
      PrepareStopFacts(settings, s, env);
    } else if RegisteredSet(Prepare(settings, s, env).state).Err? {
      UniterableStep(settings, s, env);
    } else if NotYetCollected(Prepare(settings, s, env).state) != {} {
      var p := Prepare(settings, s, env);
      PrepareGoCalls(settings, s, env);
      WaitingStep(settings, s, env);
      SleepsLastAfter(p.pre, [PeerRequests(NotYetCollected(p.state)), Sleep]);
    } else {
      ConfiguredRetry(settings, s, env);
    }
  }

  lemma ConfiguredRetry(settings: Settings, s: StartupState, env: Env)
    requires Prepare(settings, s, env).Go?
    requires RegisteredSet(Prepare(settings, s, env).state).Ok?
    requires NotYetCollected(Prepare(settings, s, env).state) == {}
    requires Configure(settings, Prepare(settings, s, env).state, env).outcome == Retry
    ensures var r := Step(settings, s, env);
      r.trace[|r.trace| - 1] == Sleep && forall e | e in r.trace :: !e.SubmitRegistration?
  {
    var p := Prepare(settings, s, env);
    PrepareGoCalls(settings, s, env);
    assert forall e | e in p.pre :: !e.SubmitRegistration?;
    ConfiguredStep(settings, s, env);
    ConfigureCompletes(settings, p.state, env);
    SleepsLastAfter(p.pre, Configure(settings, p.state, env).trace);
  }

  /** Calls that submit nothing, then a retrying stage's calls. */
  lemma SleepsLastAfter(pre: seq<Effect>, trace: seq<Effect>)
    requires forall e | e in pre :: !e.SubmitRegistration?
    requires |trace| > 0 && trace[|trace| - 1] == Sleep && forall e | e in trace :: !e.SubmitRegistration?
    ensures (pre + trace)[|pre + trace| - 1] == Sleep && forall e | e in pre + trace :: !e.SubmitRegistration?
  {
  }

  /** A start that fails sleeps twice: once inside `start_tendermint` and once in the step. */
  lemma FailedStartSleepsTwice(settings: Settings, s: StartupState, env: Env)
    requires StartNode in Step(settings, s, env).trace
    requires !StartSucceeded(env.start)
    ensures var r := Step(settings, s, env);
      r.outcome == Retry && |r.trace| >= 3 && r.trace[|r.trace| - 3..] == [StartNode, Sleep, Sleep]
  {
    if Prepare(settings, s, env).Stop? {
      PrepareStopFacts(settings, s, env);
      assert false;
    } else if RegisteredSet(Prepare(settings, s, env).state).Err? {
      PrepareGoCalls(settings, s, env);
      UniterableStep(settings, s, env);
      assert false;
    } else if NotYetCollected(Prepare(settings, s, env).state) != {} {
      PrepareGoCalls(settings, s, env);
      WaitingStep(settings, s, env);
      assert false;
    } else {
      ConfiguredFailedStart(settings, s, env);
    }
  }

  lemma ConfiguredFailedStart(settings: Settings, s: StartupState, env: Env)
    requires Prepare(settings, s, env).Go?
    requires RegisteredSet(Prepare(settings, s, env).state).Ok?
    requires NotYetCollected(Prepare(settings, s, env).state) == {}
    requires StartNode in Step(settings, s, env).trace
    requires !StartSucceeded(env.start)
    ensures var r := Step(settings, s, env);
      r.outcome == Retry && |r.trace| >= 3 && r.trace[|r.trace| - 3..] == [StartNode, Sleep, Sleep]
  {
    var p := Prepare(settings, s, env);
    PrepareGoCalls(settings, s, env);
    ConfiguredStep(settings, s, env);
    var c := Configure(settings, p.state, env);
    assert StartNode in c.trace by {
      assert StartNode !in p.pre;
      assert forall e | e in p.pre + c.trace :: e in p.pre || e in c.trace;
    }
    ConfigureStart(settings, p.state, env);
    assert c.trace[1..] == [StartNode, Sleep, Sleep];
    assert |c.trace| == 4;
    ConcatSuffix(p.pre, c.trace, 3);
  }

  /**
   * Re-entry does not repeat finished work: a held non-empty configuration
   * and a truthy `registered_addresses` are kept by every step, and while
   * they are held no step fetches the configuration or queries the registry
   * again.
   */
  lemma ReentrySkipsFinishedGates(settings: Settings, s: StartupState, env1: Env, env2: Env)
    ensures var r1 := Step(settings, s, env1);
      !Falsy(s.localTendermintParams) ==> !Falsy(r1.state.localTendermintParams)
    ensures var r1 := Step(settings, s, env1);
      !Falsy(r1.state.localTendermintParams) ==> FetchConfig !in Step(settings, r1.state, env2).trace
    ensures var r1 := Step(settings, s, env1);
      Truthy(RegisteredValue(s.initialData)) ==> Truthy(RegisteredValue(r1.state.initialData))
    ensures var r1 := Step(settings, s, env1);
      Prepare(settings, s, env1).Go? ==>
        Truthy(RegisteredValue(r1.state.initialData)) && VerifyContract !in Step(settings, r1.state, env2).trace
  {
    var r1 := Step(settings, s, env1);
    ConfigGate(settings, r1.state, env2);
    RegistryGate(settings, r1.state, env2);
    if Prepare(settings, s, env1).Stop? {
      PrepareStopFacts(settings, s, env1);
    } else {
      var s2 := Prepare(settings, s, env1).state;
      PrepareGoState(settings, s, env1);
      StepOfGo(settings, s, env1);
      CollectKeeps(settings, s2, env1);
      if RegisteredSet(s2).Err? {
        CollectRaises(settings, s2, env1);
      } else if NotYetCollected(s2) == {} {
        ConfigureKeeps(settings, s2, env1);
      } else {
        CollectWaits(settings, s2, env1);
      }
    }
  }

  /** With a configuration held and no agent collected, a text value asks one agent per distinct character. */
  lemma TextAddressesAskCharacters(settings: Settings, params: TendermintParams, env: Env)
    requires params != map[]
    ensures var s := StartupState(Some(params), map[REGISTERED_ADDRESSES := Text("ab")], map[], multiset{});
      Step(settings, s, env) ==
        StepResult(s.(outbox := multiset{"a", "b"}), [PeerRequests({"a", "b"}), Sleep], Retry)
  {
    var s := StartupState(Some(params), map[REGISTERED_ADDRESSES := Text("ab")], map[], multiset{});
    var chars: set<Address> := {"a", "b"};
    assert RegisteredValue(s.initialData) == Text("ab");
    assert RegisteredSet(s) == Ok(chars) by {
      var got := set i | 0 <= i < |"ab"| :: ["ab"[i]];
      assert "a" == ["ab"[0]] && "b" == ["ab"[1]];
      assert "a" in got && "b" in got;
      forall x | x in got ensures x in chars {
        var i :| 0 <= i < 2 && x == ["ab"[i]];
        assert i == 0 || i == 1;
      }
      assert got == chars;
    }
    assert Prepare(settings, s, env) == Go([], s);
    assert NotYetCollected(s) == chars;
    StepOfGo(settings, s, env);
    CollectWaits(settings, s, env);
    assert multiset(chars) == multiset{"a", "b"};
  }

  /** A non-zero number is truthy, so the step skips the registry and then raises TypeError on `set()`. */
  lemma NumberAddressesRaise(settings: Settings, params: TendermintParams, env: Env)
    requires params != map[]
    ensures var s := StartupState(Some(params), map[REGISTERED_ADDRESSES := Number(5)], map[], multiset{});
      Step(settings, s, env) == StepResult(s, [], Raised(NotIterable))
  {
  }

  /** Taking one more address out of those still to ask. */
  lemma RequestOneMore(addrs: set<Address>, rest: set<Address>, a: Address)
    requires a in rest && rest <= addrs
    ensures multiset(addrs - (rest - {a})) == multiset(addrs - rest) + multiset{a}
    ensures |rest - {a}| == |rest| - 1
  {
    assert addrs - (rest - {a}) == (addrs - rest) + {a};
  }

  // ---------------------------------------------------------------------------
  // The behaviour object

  class RegistrationStartupBehaviour {
    const settings: Settings
    var localTendermintParams: Option<TendermintParams>
    var initialData: map<string, InitValue>
    /** the Tendermint addresses received from peers; the peer callback fills it */
    var collected: map<Address, Url>
    /** the counterparties of the Tendermint requests sent, in order */
    var outbox: seq<Address>

    constructor (settings: Settings, initialData: map<string, InitValue>)
      ensures this.settings == settings && this.initialData == initialData
      ensures localTendermintParams == None && collected == map[] && outbox == []
    {
      this.settings := settings;
      this.initialData := initialData;
      localTendermintParams := None;
      collected := map[];
      outbox := [];
    }

    function State(): StartupState
      reads this
    {
      StartupState(localTendermintParams, initialData, collected, multiset(outbox))
    }

    /** `make_tendermint_request` for each address of the set, in the order the set iterates. */
    method RequestPeers(addrs: set<Address>)
      modifies this
      ensures State() == old(State()).(outbox := old(State()).outbox + multiset(addrs))
      ensures |outbox| == |old(outbox)| + |addrs| && outbox[..|old(outbox)|] == old(outbox)
    {
      ghost var start := outbox;
      var rest := addrs;
      while rest != {}
        invariant rest <= addrs
        invariant unchanged(`localTendermintParams, `initialData, `collected)
        invariant multiset(outbox) == multiset(start) + multiset(addrs - rest)
        invariant |outbox| + |rest| == |start| + |addrs| && outbox[..|start|] == start
        decreases |rest|
      {
        var a :| a in rest;
        RequestOneMore(addrs, rest, a);
        assert (outbox + [a])[..|start|] == outbox[..|start|];
        assert multiset(outbox + [a]) == multiset(outbox) + multiset{a};
        outbox := outbox + [a];
        rest := rest - {a};
      }
      assert addrs - rest == addrs;
    }

    /** `update_tendermint_configuration`, `start_tendermint` and the submission. */
    method ConfigureAndStart(env: Env) returns (trace: seq<Effect>, outcome: Outcome)
      requires localTendermintParams.Some?
      modifies this
      ensures StepResult(State(), trace, outcome) == Configure(settings, old(State()), env)
    {
      var seeds := Seeds(RegisteredValue(initialData));
      if seeds.Err? {
        return [], Raised(seeds.error);
      }
      var params := localTendermintParams.value[P2P_SEEDS := seeds.value];
      localTendermintParams := Some(params);
      trace := [UpdateConfig(params)];
      var updated := UpdateSucceeded(env.update);
      if updated.Err? {
        return trace, Raised(updated.error);
      }
      if !updated.value {
        return trace + [Sleep], Retry;
      }
      trace := trace + [StartNode];
      if !StartSucceeded(env.start) {
        return trace + [Sleep, Sleep], Retry;
      }
      trace := trace + [SubmitRegistration(settings.agentAddress, initialData)];
      outcome := Completed;
    }

    /** Request every registered agent not yet collected; go on only when there is none. */
    method CollectAndConfigure(env: Env) returns (trace: seq<Effect>, outcome: Outcome)
      requires localTendermintParams.Some?
      modifies this
      ensures StepResult(State(), trace, outcome) == Collect(settings, old(State()), env)
    {
      var registered := Members(RegisteredValue(initialData));
      if registered.Err? {
        return [], Raised(registered.error);
      }
      var missing := registered.value - collected.Keys;
      assert missing == NotYetCollected(old(State()));
      RequestPeers(missing);
      if missing != {} {
        return [PeerRequests(missing), Sleep], Retry;
      }
      assert State() == old(State());
      trace, outcome := ConfigureAndStart(env);
    }

    /** `get_addresses`: on success, records the registered agents in `initial_data`. */
    method GetAddressesStep(env: Env) returns (trace: seq<Effect>, r: Result<bool, StartupError>)
      modifies this
      ensures var spec := GetAddresses(settings, old(initialData), env);
        trace == spec.trace && r == spec.result && State() == old(State()).(initialData := spec.data)
    {
      if settings.serviceRegistryAddress.None? {
        return [], Err(NoRegistryAddress);
      }
      trace := [VerifyContract];
      if !env.verified {
        return trace, Ok(false);
      }
      trace := trace + [GetServiceInfo];
      match env.serviceInfo {
        case EmptyInfo => return trace, Ok(false);
        case InfoWithoutInstances => return trace, Err(MissingAgentInstances);
        case InfoWith(list) =>
          var registered := Elements(list);
          if registered == {} {
            return trace, Ok(false);
          }
          if settings.agentAddress !in registered {
            return trace, Ok(false);
          }
          var info := AddressTableFor(registered, settings.agentAddress, settings.tendermintUrl);
          initialData := initialData[REGISTERED_ADDRESSES := AddressTable(info)];
          return trace, Ok(true);
      }
    }

    /** The registry stage: stops the step, or says where collecting starts. */
    method RegisterStep(pre: seq<Effect>, env: Env) returns (p: Prepared)
      requires localTendermintParams.Some?
      modifies this
      ensures p == Register(settings, old(State()), pre, env)
      ensures State() == if p.Go? then p.state else p.result.state
    {
      if Truthy(RegisteredValue(initialData)) {
        return Go(pre, State());
      }
      var calls, r := GetAddressesStep(env);
      if r.Err? {
        return Stop(StepResult(State(), pre + calls, Raised(r.error)));
      }
      if !r.value {
        return Stop(StepResult(State(), pre + calls + [Sleep], Retry));
      }
      return Go(pre + calls, State());
    }

    /** `get_tendermint_configuration`: stores the decoded reply. */
    method GetTendermintConfiguration(reply: ConfigReply) returns (ok: bool)
      modifies this
      ensures ok <==> reply.ConfigParams?
      ensures State() == if ok then old(State()).(localTendermintParams := Some(reply.params)) else old(State())
    {
      match reply
      case ConfigMalformed => return false;
      case ConfigParams(params) =>
        localTendermintParams := Some(params);
        return true;
    }

    /** `async_act` of the startup behaviour: one entry of the step. */
    method AsyncAct(env: Env) returns (trace: seq<Effect>, outcome: Outcome)
      modifies this
      ensures StepResult(State(), trace, outcome) == Step(settings, old(State()), env)
    {
      var p: Prepared;
      if !Falsy(localTendermintParams) {
        p := RegisterStep([], env);
      } else {
        var ok := GetTendermintConfiguration(env.config);
        if !ok {
          return [FetchConfig, Sleep], Retry;
        }
        p := RegisterStep([FetchConfig], env);
      }
      if p.Stop? {
        return p.result.trace, p.result.outcome;
      }
      var rest;
      rest, outcome := CollectAndConfigure(env);
      trace := p.pre + rest;
    }
  }
}
