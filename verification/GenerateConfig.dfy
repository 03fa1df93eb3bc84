/** Rendering config.toml and its version. */
module GenerateConfig {
  import opened Names
  import opened Executor
  import opened Rbac
  import opened RunnerObject
  import opened ConfigSecret

  const CA_FILE := "/etc/gitlab-runner/ca.crt"

  /** One [[runners]] entry of the rendered config. */
  datatype RunnerConfig = RunnerConfig(name: string, token: string, settings: string, kubernetes: KubernetesConfig,
                                       tlsCAFile: string)

  /** The TOML encoder and the digest, as functions. */
  datatype Codec = Codec(encode: seq<RunnerConfig> -> string, digest: string -> string)

  function TokenFor(tokens: map<string, string>, name: string): string {
    if name in tokens then tokens[name] else ""
  }

  /** An executor config with its namespace made explicit. */
  function Resolved(cfg: KubernetesConfig, namespace: string): KubernetesConfig {
    cfg.(namespace := EffectiveNamespace(cfg, namespace))
  }

  function ConfigFor(e: Entry, namespace: string, tokens: map<string, string>, customCA: bool): RunnerConfig {
    RunnerConfig(e.name, TokenFor(tokens, e.name), e.settings, Resolved(e.executor, namespace), if customCA then CA_FILE else "")
  }

  /** What the operator means to render: every entry, with an explicit namespace. */
  function ConfigOf(entries: seq<Entry>, namespace: string, tokens: map<string, string>, customCA: bool): (r: seq<RunnerConfig>)
    ensures |r| == |entries| && forall i | 0 <= i < |r| :: r[i] == ConfigFor(entries[i], namespace, tokens, customCA)
  {
    seq(|entries|, i requires 0 <= i < |entries| => ConfigFor(entries[i], namespace, tokens, customCA))
  }

  /** The digest covers the text and, when there is one, the CA bundle. */
  function Version(codec: Codec, text: string, ca: string): string {
    (codec.digest)(if ca != "" then text + "\n" + ca else text)
  }

  /** Renders a Runner. The config points into the spec, so the namespace it resolves is
      written into the object's own executor config. */
  method SingleRunnerConfig(obj: RunnerObject, tokens: map<string, string>, ca: string, customCA: bool, codec: Codec)
    returns (text: string, version: string)
    requires obj.kind.Runner? && obj.WellFormed()
    modifies obj`entries
    ensures text == (codec.encode)(ConfigOf(old(obj.entries), obj.namespace, tokens, customCA))
    ensures version == Version(codec, text, ca)
    ensures obj.entries == [old(obj.entries)[0].(executor := Resolved(old(obj.entries)[0].executor, obj.namespace))]
  {
    var e := obj.entries[0];
    obj.entries := obj.entries[0 := e.(executor := e.executor.(namespace := EffectiveNamespace(e.executor, obj.namespace)))];
    var runner := RunnerConfig(obj.name, TokenFor(tokens, obj.name), e.settings, obj.entries[0].executor, if customCA then CA_FILE else "");
    assert [runner] == ConfigOf(old(obj.entries), obj.namespace, tokens, customCA);
    text := (codec.encode)([runner]);
    version := (codec.digest)(if ca != "" then text + "\n" + ca else text);
  }

  /** Renders a MultiRunner from a copy of each executor config: the spec is left alone. */
  method MultiRunnerConfig(obj: RunnerObject, tokens: map<string, string>, ca: string, customCA: bool, codec: Codec)
    returns (text: string, version: string)
    ensures text == (codec.encode)(ConfigOf(obj.entries, obj.namespace, tokens, customCA))
    ensures version == Version(codec, text, ca)
  {
    var runners: seq<RunnerConfig> := [];
    for i := 0 to |obj.entries|
      invariant runners == ConfigOf(obj.entries, obj.namespace, tokens, customCA)[..i]
    {
      var entry := obj.entries[i];
      var executorConfig := entry.executor;
      executorConfig := executorConfig.(namespace := EffectiveNamespace(executorConfig, obj.namespace));
      runners := runners + [RunnerConfig(entry.name, TokenFor(tokens, entry.name), entry.settings, executorConfig, if customCA then CA_FILE else "")];
    }
    assert runners == ConfigOf(obj.entries, obj.namespace, tokens, customCA);
    text := (codec.encode)(runners);
    version := (codec.digest)(if ca != "" then text + "\n" + ca else text);
  }

  method TomlConfig(obj: RunnerObject, tokens: map<string, string>, ca: string, customCA: bool, codec: Codec)
    returns (text: string, version: string)
    requires obj.WellFormed()
    modifies obj`entries
    ensures text == (codec.encode)(ConfigOf(old(obj.entries), obj.namespace, tokens, customCA))
    ensures version == Version(codec, text, ca)
    ensures obj.WellFormed() && SameBut(old(obj.entries), obj.entries, obj.namespace)
  {
    match obj.kind
    case Runner => text, version := SingleRunnerConfig(obj, tokens, ca, customCA, codec);
    case MultiRunner => text, version := MultiRunnerConfig(obj, tokens, ca, customCA, codec);
  }

  /** The entries are the same, except that a namespace may have been made explicit. */
  predicate SameBut(before: seq<Entry>, after: seq<Entry>, namespace: string) {
    && |after| == |before|
    && forall i | 0 <= i < |before| ::
         after[i] == before[i] || after[i] == before[i].(executor := Resolved(before[i].executor, namespace))
  }

  /** The write through the alias changes neither what RBAC wants nor what is rendered. */
  lemma AliasWriteIsInvisible(o: Owner, before: seq<Entry>, after: seq<Entry>, tokens: map<string, string>, customCA: bool)
    requires SameBut(before, after, o.namespace)
    ensures forall ns, grant ::
              Wanted(o.(executors := Executors(before)), ns, grant) <==> Wanted(o.(executors := Executors(after)), ns, grant)
    ensures ConfigOf(before, o.namespace, tokens, customCA) == ConfigOf(after, o.namespace, tokens, customCA)
  {
  }

  /** RBAC and rendering agree: every namespace the config names carries the base binding,
      and the disruption-budget binding where the config enables it. */
  lemma RenderedNamespacesAreBound(st: State, o: Owner, entries: seq<Entry>, tokens: map<string, string>, customCA: bool)
    requires o.executors == Executors(entries) && Granted(st, o)
    ensures forall r | r in ConfigOf(entries, o.namespace, tokens, customCA) ::
              && KeyOf(o, r.kubernetes.namespace, Base) in st.bindings
              && (WantsPdb(r.kubernetes) ==> KeyOf(o, r.kubernetes.namespace, Pdb) in st.bindings)
  {
  }

  /** Where the manager pod mounts the config Secret. */
  const CONFIG_MOUNT := "/etc/gitlab-runner/"

  /** The path is that of a key of the mounted Secret. */
  ghost predicate Mounted(data: Data, path: string) {
    exists key :: key in data && path == CONFIG_MOUNT + key
  }

  lemma MountedIff(data: Data, key: string)
    ensures Mounted(data, CONFIG_MOUNT + key) <==> key in data
  {
    assert forall other :: (CONFIG_MOUNT + other)[|CONFIG_MOUNT|..] == other;
  }

  /** What one rendered entry says: its own name and settings, the token the Secret keeps for it,
      the namespace the spec names or else the object's own, and a CA file if one is configured. */
  ghost predicate Serves(r: RunnerConfig, e: Entry, namespace: string, data: Data, customCA: bool) {
    && r.name == e.name && r.settings == e.settings
    && TOKEN_PREFIX + e.name in data && r.token == data[TOKEN_PREFIX + e.name]
    && r.kubernetes.namespace == (if e.executor.namespace == "" then namespace else e.executor.namespace)
    && r.kubernetes.podDisruptionBudget == e.executor.podDisruptionBudget
    && (r.tlsCAFile != "" <==> customCA)
  }

  /** The config and the Secret it is stored in fit together, entry by entry. The CA file it names
      is there exactly when the bundle is not empty: a source that resolves to nothing is still
      named, and nothing is mounted. */
  lemma ConfigIsServed(entries: seq<Entry>, namespace: string, tokens: map<string, string>, customCA: bool, ca: string,
                       data: Data, text: string, i: nat)
    requires i < |entries| && entries[i].name in tokens && IsRendered(data, text, tokens, ca)
    ensures
      var config := ConfigOf(entries, namespace, tokens, customCA);
      && |config| == |entries| && Serves(config[i], entries[i], namespace, data, customCA)
      && (customCA ==> (Mounted(data, config[i].tlsCAFile) <==> ca != ""))
  {
    KeysApart(entries[i].name);
    MountedIff(data, CA_KEY);
    assert CA_FILE == CONFIG_MOUNT + CA_KEY;
  }

  ghost predicate Injective(f: string -> string) {
    forall x, y :: f(x) == f(y) ==> x == y
  }

  /** With a collision-free digest, a change of the text or of the CA bundle alone changes the
      version, and so does adding a bundle to a given text. */
  lemma VersionFollowsContent(codec: Codec, text: string, ca: string, text': string, ca': string)
    requires Injective(codec.digest)
    requires text == text' || ca == ca'
    ensures Version(codec, text, ca) == Version(codec, text', ca') <==> text == text' && ca == ca'
  {
    var input := if ca != "" then text + "\n" + ca else text;
    var input' := if ca' != "" then text' + "\n" + ca' else text';
    assert ca != "" ==> input[..|text|] == text && input[|text| + 1..] == ca && |input| > |text|;
    assert ca' != "" ==> input'[..|text'|] == text' && input'[|text'| + 1..] == ca' && |input'| > |text'|;
    assert ca == ca' && input == input' ==> |text| == |text'|;
  }
}
