/**
 The Secrets and ConfigMaps a pod consumes, and the stamp that makes it restart when one
 of them changes.
 */
module Inputs {
  import opened Wrappers
  import opened Objects
  import opened Store

  // ---- references, in the order they are collected ----

  datatype Source = SecretSource | ConfigSource

  datatype Use = Use(source: Source, name: string, optional: bool)

  function Flag(optional: Option<bool>): bool { optional == Some(true) }

  function RefUse(source: Source, r: Option<Ref>): seq<Use> {
    if r.None? then [] else [Use(source, r.value.name, Flag(r.value.optional))]
  }

  function KeyRefUse(source: Source, r: Option<KeyRef>): seq<Use> {
    if r.None? then [] else [Use(source, r.value.name, Flag(r.value.optional))]
  }

  function ProjectionUses(ps: seq<Projection>): seq<Use> {
    if ps == [] then []
    else
      var p := ps[|ps| - 1];
      ProjectionUses(ps[..|ps| - 1]) + RefUse(SecretSource, p.secret) + RefUse(ConfigSource, p.config)
  }

  function VolumeUses(vs: seq<Volume>): seq<Use> {
    if vs == [] then []
    else
      var v := vs[|vs| - 1];
      VolumeUses(vs[..|vs| - 1]) + RefUse(SecretSource, v.secret) + RefUse(ConfigSource, v.config)
      + ProjectionUses(v.projected.GetOr([]))
  }

  function EnvUses(vs: seq<EnvVar>): seq<Use> {
    if vs == [] then []
    else
      var from := vs[|vs| - 1].valueFrom.GetOr(ValueFrom(None, None, UNSET));
      EnvUses(vs[..|vs| - 1]) + KeyRefUse(SecretSource, from.secretKey) + KeyRefUse(ConfigSource, from.configKey)
  }

  function EnvFromUses(es: seq<EnvFrom>): seq<Use> {
    if es == [] then []
    else
      var e := es[|es| - 1];
      EnvFromUses(es[..|es| - 1]) + RefUse(SecretSource, e.secret) + RefUse(ConfigSource, e.config)
  }

  function ContainerUses(cs: seq<Container>): seq<Use> {
    if cs == [] then []
    else
      var c := cs[|cs| - 1];
      ContainerUses(cs[..|cs| - 1]) + EnvUses(c.managed.env) + EnvFromUses(c.managed.envFrom)
  }

  /** Everything the pod refers to: volumes, then containers, then init containers. */
  function PodUses(pod: PodTemplate): seq<Use> {
    VolumeUses(pod.spec.volumes) + ContainerUses(pod.spec.containers + pod.spec.initContainers)
  }

  // ---- collecting them ----

  type Flags = map<string, bool>

  /** Each name with the flag of its last use. */
  function Collected(source: Source, uses: seq<Use>): Flags {
    if uses == [] then map[]
    else
      var earlier, last := Collected(source, uses[..|uses| - 1]), uses[|uses| - 1];
      if last.source == source then earlier[last.name := last.optional] else earlier
  }

  predicate Is(u: Use, source: Source, name: string) { u.source == source && u.name == name }

  /** Use `i` is the last one of this object. */
  predicate LastUse(uses: seq<Use>, i: nat, source: Source, name: string) {
    i < |uses| && Is(uses[i], source, name) && forall j | i < j < |uses| :: !Is(uses[j], source, name)
  }

  /** Exactly the names used are collected. */
  lemma {:induction false} CollectedNames(source: Source, uses: seq<Use>, name: string)
    ensures name in Collected(source, uses) <==> exists i :: 0 <= i < |uses| && Is(uses[i], source, name)
  {
    if uses != [] {
      var n := |uses| - 1;
      CollectedNames(source, uses[..n], name);
      assert forall i :: 0 <= i < n ==> uses[..n][i] == uses[i];
      assert Is(uses[n], source, name) || !Is(uses[n], source, name);
    }
  }

  /** Each with the flag of its last use. */
  lemma {:induction false} CollectedFlag(source: Source, uses: seq<Use>, i: nat, name: string)
    requires LastUse(uses, i, source, name)
    ensures name in Collected(source, uses) && Collected(source, uses)[name] == uses[i].optional
  {
    var n := |uses| - 1;
    if i < n {
      assert !Is(uses[n], source, name);
      CollectedFlag(source, uses[..n], i, name);
    }
  }

  // ---- what a pod refers to ----

  predicate RefTo(r: Option<Ref>, name: string) { r.Some? && r.value.name == name }

  predicate KeyRefTo(r: Option<KeyRef>, name: string) { r.Some? && r.value.name == name }

  /** The pair of references that volumes, projected sources and environment sources have. */
  predicate PairTo(source: Source, secret: Option<Ref>, config: Option<Ref>, name: string) {
    if source.SecretSource? then RefTo(secret, name) else RefTo(config, name)
  }

  predicate VolumeTo(source: Source, v: Volume, name: string) {
    || PairTo(source, v.secret, v.config, name)
    || (v.projected.Some? && exists p | p in v.projected.value :: PairTo(source, p.secret, p.config, name))
  }

  predicate VariableTo(source: Source, v: EnvVar, name: string) {
    && v.valueFrom.Some?
    && if source.SecretSource? then KeyRefTo(v.valueFrom.value.secretKey, name) else KeyRefTo(v.valueFrom.value.configKey, name)
  }

  predicate ContainerTo(source: Source, c: Container, name: string) {
    || (exists v | v in c.managed.env :: VariableTo(source, v, name))
    || (exists e | e in c.managed.envFrom :: PairTo(source, e.secret, e.config, name))
  }

  /** Some volume, or some container or init container, refers to the object. */
  predicate PodRefersTo(pod: PodTemplate, source: Source, name: string) {
    || (exists v | v in pod.spec.volumes :: VolumeTo(source, v, name))
    || (exists c | c in pod.spec.containers :: ContainerTo(source, c, name))
    || (exists c | c in pod.spec.initContainers :: ContainerTo(source, c, name))
  }

  ghost predicate Named(uses: seq<Use>, source: Source, name: string) {
    exists i :: 0 <= i < |uses| && Is(uses[i], source, name)
  }

  lemma NamedInBoth(a: seq<Use>, b: seq<Use>, source: Source, name: string)
    ensures Named(a + b, source, name) <==> Named(a, source, name) || Named(b, source, name)
  {
    if i :| 0 <= i < |a| && Is(a[i], source, name) {
      assert Is((a + b)[i], source, name);
    }
    if i :| 0 <= i < |b| && Is(b[i], source, name) {
      assert Is((a + b)[|a| + i], source, name);
    }
    if i :| 0 <= i < |a + b| && Is((a + b)[i], source, name) {
      assert i < |a| ==> Is(a[i], source, name);
      assert i >= |a| ==> Is(b[i - |a|], source, name);
    }
  }

  lemma PairNamed(source: Source, secret: Option<Ref>, config: Option<Ref>, name: string)
    ensures Named(RefUse(SecretSource, secret), source, name) || Named(RefUse(ConfigSource, config), source, name) <==>
      PairTo(source, secret, config, name)
  {
    if secret.Some? {
      assert Is(RefUse(SecretSource, secret)[0], source, name) <==> source.SecretSource? && RefTo(secret, name);
    }
    if config.Some? {
      assert Is(RefUse(ConfigSource, config)[0], source, name) <==> source.ConfigSource? && RefTo(config, name);
    }
  }

  lemma VariableNamed(source: Source, v: EnvVar, name: string)
    ensures var from := v.valueFrom.GetOr(ValueFrom(None, None, UNSET));
      Named(KeyRefUse(SecretSource, from.secretKey), source, name) || Named(KeyRefUse(ConfigSource, from.configKey), source, name)
      <==> VariableTo(source, v, name)
  {
    var from := v.valueFrom.GetOr(ValueFrom(None, None, UNSET));
    if from.secretKey.Some? {
      assert Is(KeyRefUse(SecretSource, from.secretKey)[0], source, name) <==>
             source.SecretSource? && KeyRefTo(from.secretKey, name);
    }
    if from.configKey.Some? {
      assert Is(KeyRefUse(ConfigSource, from.configKey)[0], source, name) <==>
             source.ConfigSource? && KeyRefTo(from.configKey, name);
    }
  }

  lemma LastOrEarlier<T>(xs: seq<T>)
    requires xs != []
    ensures forall x :: x in xs <==> x == xs[|xs| - 1] || x in xs[..|xs| - 1]
  {
    assert xs == xs[..|xs| - 1] + [xs[|xs| - 1]];
  }

  lemma {:induction false} ProjectionsNamed(source: Source, ps: seq<Projection>, name: string)
    ensures Named(ProjectionUses(ps), source, name) <==> exists p :: p in ps && PairTo(source, p.secret, p.config, name)
  {
    if ps != [] {
      var init, p := ps[..|ps| - 1], ps[|ps| - 1];
      ProjectionsNamed(source, init, name);
      LastOrEarlier(ps);
      NamedInBoth(ProjectionUses(init) + RefUse(SecretSource, p.secret), RefUse(ConfigSource, p.config), source, name);
      NamedInBoth(ProjectionUses(init), RefUse(SecretSource, p.secret), source, name);
      PairNamed(source, p.secret, p.config, name);
      hide Named, PairTo, RefUse;
    }
  }

  lemma {:induction false} VolumesNamed(source: Source, vs: seq<Volume>, name: string)
    ensures Named(VolumeUses(vs), source, name) <==> exists v :: v in vs && VolumeTo(source, v, name)
  {
    if vs != [] {
      var init, v := vs[..|vs| - 1], vs[|vs| - 1];
      VolumesNamed(source, init, name);
      LastOrEarlier(vs);
      var refs := VolumeUses(init) + RefUse(SecretSource, v.secret) + RefUse(ConfigSource, v.config);
      NamedInBoth(refs, ProjectionUses(v.projected.GetOr([])), source, name);
      NamedInBoth(VolumeUses(init) + RefUse(SecretSource, v.secret), RefUse(ConfigSource, v.config), source, name);
      NamedInBoth(VolumeUses(init), RefUse(SecretSource, v.secret), source, name);
      PairNamed(source, v.secret, v.config, name);
      ProjectionsNamed(source, v.projected.GetOr([]), name);
      hide Named, PairTo, RefUse, ProjectionUses;
      assert Named(ProjectionUses(v.projected.GetOr([])), source, name) || PairTo(source, v.secret, v.config, name) <==>
             VolumeTo(source, v, name);
      hide VolumeTo;
    }
  }

  lemma {:induction false} EnvNamed(source: Source, vs: seq<EnvVar>, name: string)
    ensures Named(EnvUses(vs), source, name) <==> exists v :: v in vs && VariableTo(source, v, name)
  {
    if vs != [] {
      var init, v := vs[..|vs| - 1], vs[|vs| - 1];
      var from := v.valueFrom.GetOr(ValueFrom(None, None, UNSET));
      EnvNamed(source, init, name);
      LastOrEarlier(vs);
      NamedInBoth(EnvUses(init) + KeyRefUse(SecretSource, from.secretKey), KeyRefUse(ConfigSource, from.configKey), source, name);
      NamedInBoth(EnvUses(init), KeyRefUse(SecretSource, from.secretKey), source, name);
      VariableNamed(source, v, name);
      hide Named, VariableTo, KeyRefUse;
    }
  }

  lemma {:induction false} EnvFromNamed(source: Source, es: seq<EnvFrom>, name: string)
    ensures Named(EnvFromUses(es), source, name) <==> exists e :: e in es && PairTo(source, e.secret, e.config, name)
  {
    if es != [] {
      var init, e := es[..|es| - 1], es[|es| - 1];
      EnvFromNamed(source, init, name);
      LastOrEarlier(es);
      NamedInBoth(EnvFromUses(init) + RefUse(SecretSource, e.secret), RefUse(ConfigSource, e.config), source, name);
      NamedInBoth(EnvFromUses(init), RefUse(SecretSource, e.secret), source, name);
      PairNamed(source, e.secret, e.config, name);
      hide Named, PairTo, RefUse;
    }
  }

  lemma {:induction false} ContainersNamed(source: Source, cs: seq<Container>, name: string)
    ensures Named(ContainerUses(cs), source, name) <==> exists c :: c in cs && ContainerTo(source, c, name)
  {
    if cs != [] {
      var init, c := cs[..|cs| - 1], cs[|cs| - 1];
      ContainersNamed(source, init, name);
      LastOrEarlier(cs);
      NamedInBoth(ContainerUses(init) + EnvUses(c.managed.env), EnvFromUses(c.managed.envFrom), source, name);
      NamedInBoth(ContainerUses(init), EnvUses(c.managed.env), source, name);
      EnvNamed(source, c.managed.env, name);
      EnvFromNamed(source, c.managed.envFrom, name);
      hide Named, PairTo, VariableTo, EnvUses, EnvFromUses;
      assert Named(EnvUses(c.managed.env), source, name) || Named(EnvFromUses(c.managed.envFrom), source, name) <==>
             ContainerTo(source, c, name);
      hide ContainerTo;
    }
  }

  /** A name is collected exactly if a volume, a container or an init container refers to an object of that kind and name. */
  lemma CollectedReferences(pod: PodTemplate, source: Source, name: string)
    ensures name in Collected(source, PodUses(pod)) <==> PodRefersTo(pod, source, name)
  {
    var containers := pod.spec.containers + pod.spec.initContainers;
    CollectedNames(source, PodUses(pod), name);
    NamedInBoth(VolumeUses(pod.spec.volumes), ContainerUses(containers), source, name);
    VolumesNamed(source, pod.spec.volumes, name);
    ContainersNamed(source, containers, name);
    hide Collected, VolumeUses, ContainerUses, VolumeTo, ContainerTo;
    assert forall c :: c in containers <==> c in pod.spec.containers || c in pod.spec.initContainers;
  }

  datatype Found = Found(secrets: Flags, configs: Flags)

  function FoundIn(uses: seq<Use>): Found { Found(Collected(SecretSource, uses), Collected(ConfigSource, uses)) }

  function AddRef(flags: Flags, r: Option<Ref>): Flags {
    if r.None? then flags else flags[r.value.name := Flag(r.value.optional)]
  }

  function AddKeyRef(flags: Flags, r: Option<KeyRef>): Flags {
    if r.None? then flags else flags[r.value.name := Flag(r.value.optional)]
  }

  lemma CollectOne(source: Source, uses: seq<Use>, u: Use)
    ensures Collected(source, uses + [u])
         == if u.source == source then Collected(source, uses)[u.name := u.optional] else Collected(source, uses)
  {
    assert (uses + [u])[..|uses|] == uses;
  }

  /** A pair of references, as volumes, sources and environment entries have them. */
  lemma CollectPair(uses: seq<Use>, secret: Option<Ref>, config: Option<Ref>)
    ensures FoundIn(uses + RefUse(SecretSource, secret) + RefUse(ConfigSource, config))
         == Found(AddRef(Collected(SecretSource, uses), secret), AddRef(Collected(ConfigSource, uses), config))
  {
    var middle := uses + RefUse(SecretSource, secret);
    if secret.Some? {
      CollectOne(SecretSource, uses, RefUse(SecretSource, secret)[0]);
      CollectOne(ConfigSource, uses, RefUse(SecretSource, secret)[0]);
    } else {
      assert middle == uses;
    }
    if config.Some? {
      CollectOne(SecretSource, middle, RefUse(ConfigSource, config)[0]);
      CollectOne(ConfigSource, middle, RefUse(ConfigSource, config)[0]);
    } else {
      assert middle + RefUse(ConfigSource, config) == middle;
    }
  }

  lemma CollectKeyPair(uses: seq<Use>, secret: Option<KeyRef>, config: Option<KeyRef>)
    ensures FoundIn(uses + KeyRefUse(SecretSource, secret) + KeyRefUse(ConfigSource, config))
         == Found(AddKeyRef(Collected(SecretSource, uses), secret), AddKeyRef(Collected(ConfigSource, uses), config))
  {
    var s := if secret.None? then None else Some(Ref(secret.value.name, secret.value.optional));
    var c := if config.None? then None else Some(Ref(config.value.name, config.value.optional));
    CollectPair(uses, s, c);
  }

  method ProjectionInputs(ghost before: seq<Use>, found: Found, sources: seq<Projection>) returns (r: Found)
    requires found == FoundIn(before)
    ensures r == FoundIn(before + ProjectionUses(sources))
  {
    r := found;
    assert before + ProjectionUses(sources[..0]) == before;
    for i := 0 to |sources|
      invariant r == FoundIn(before + ProjectionUses(sources[..i]))
    {
      var source := sources[i];
      ghost var uses := before + ProjectionUses(sources[..i]);
      r := Found(AddRef(r.secrets, source.secret), AddRef(r.configs, source.config));
      CollectPair(uses, source.secret, source.config);
      assert sources[..i + 1][..i] == sources[..i];
      assert before + ProjectionUses(sources[..i + 1])
          == uses + RefUse(SecretSource, source.secret) + RefUse(ConfigSource, source.config);
    }
    assert sources[..|sources|] == sources;
  }

  method VolumeInputs(volumes: seq<Volume>) returns (r: Found)
    ensures r == FoundIn(VolumeUses(volumes))
  {
    r := Found(map[], map[]);
    for i := 0 to |volumes|
      invariant r == FoundIn(VolumeUses(volumes[..i]))
    {
      var volume := volumes[i];
      ghost var uses := VolumeUses(volumes[..i]);
      r := Found(AddRef(r.secrets, volume.secret), AddRef(r.configs, volume.config));
      CollectPair(uses, volume.secret, volume.config);
      ghost var both := uses + RefUse(SecretSource, volume.secret) + RefUse(ConfigSource, volume.config);
      if volume.projected.Some? {
        r := ProjectionInputs(both, r, volume.projected.value);
      } else {
        assert both + ProjectionUses([]) == both;
      }
      assert volumes[..i + 1][..i] == volumes[..i];
    }
    assert volumes[..|volumes|] == volumes;
  }

  method EnvInputs(ghost before: seq<Use>, found: Found, env: seq<EnvVar>) returns (r: Found)
    requires found == FoundIn(before)
    ensures r == FoundIn(before + EnvUses(env))
  {
    hide Collected, KeyRefUse;
    r := found;
    assert before + EnvUses(env[..0]) == before;
    for i := 0 to |env|
      invariant r == FoundIn(before + EnvUses(env[..i]))
    {
      ghost var uses := before + EnvUses(env[..i]);
      ghost var from := env[i].valueFrom.GetOr(ValueFrom(None, None, UNSET));
      CollectKeyPair(uses, from.secretKey, from.configKey);
      assert env[..i + 1][..i] == env[..i];
      assert before + EnvUses(env[..i + 1])
          == uses + KeyRefUse(SecretSource, from.secretKey) + KeyRefUse(ConfigSource, from.configKey);
      if env[i].valueFrom.None? {
        continue;
      }
      r := Found(AddKeyRef(r.secrets, env[i].valueFrom.value.secretKey), AddKeyRef(r.configs, env[i].valueFrom.value.configKey));
    }
    assert env[..|env|] == env;
  }

  method EnvFromInputs(ghost before: seq<Use>, found: Found, envFrom: seq<EnvFrom>) returns (r: Found)
    requires found == FoundIn(before)
    ensures r == FoundIn(before + EnvFromUses(envFrom))
  {
    r := found;
    assert before + EnvFromUses(envFrom[..0]) == before;
    for i := 0 to |envFrom|
      invariant r == FoundIn(before + EnvFromUses(envFrom[..i]))
    {
      ghost var uses := before + EnvFromUses(envFrom[..i]);
      r := Found(AddRef(r.secrets, envFrom[i].secret), AddRef(r.configs, envFrom[i].config));
      CollectPair(uses, envFrom[i].secret, envFrom[i].config);
      assert envFrom[..i + 1][..i] == envFrom[..i];
      assert before + EnvFromUses(envFrom[..i + 1])
          == uses + RefUse(SecretSource, envFrom[i].secret) + RefUse(ConfigSource, envFrom[i].config);
    }
    assert envFrom[..|envFrom|] == envFrom;
  }

  method PodInputs(pod: PodTemplate) returns (r: Found)
    ensures r == FoundIn(PodUses(pod))
  {
    hide FoundIn, VolumeUses, EnvUses, EnvFromUses;
    r := VolumeInputs(pod.spec.volumes);
    ghost var volumes := VolumeUses(pod.spec.volumes);
    var containers := pod.spec.containers + pod.spec.initContainers;
    assert volumes + ContainerUses(containers[..0]) == volumes;
    for i := 0 to |containers|
      invariant r == FoundIn(volumes + ContainerUses(containers[..i]))
    {
      ghost var uses := volumes + ContainerUses(containers[..i]);
      var managed := containers[i].managed;
      r := EnvInputs(uses, r, managed.env);
      r := EnvFromInputs(uses + EnvUses(managed.env), r, managed.envFrom);
      assert containers[..i + 1][..i] == containers[..i];
      assert volumes + ContainerUses(containers[..i + 1]) == uses + EnvUses(managed.env) + EnvFromUses(managed.envFrom);
    }
    assert containers[..|containers|] == containers;
  }

  // ---- the stamp ----

  datatype Input = SecretInput(data: Option<map<string, string>>) | ConfigInput(config: map<string, string>, binary: map<string, string>)

  type Digest = map<string, Input> -> string

  const SECRET := "secret/"
  const CONFIG := "config/"
  const INPUTS_HASH := "core.supabase.io/inputs-hash"

  /** What a run reads of an object; nothing if there is none. */
  function SecretAt(s: Store, namespace: string, name: string): Option<Input> {
    var k := Key(KindSecret, namespace, name);
    if k in s.objects && s.objects[k].body.Secret? then Some(SecretInput(s.objects[k].body.data)) else None
  }

  function ConfigAt(s: Store, namespace: string, name: string): Option<Input> {
    var k := Key(KindConfigMap, namespace, name);
    if k in s.objects && s.objects[k].body.ConfigMap?
    then Some(ConfigInput(s.objects[k].body.config, s.objects[k].body.binary)) else None
  }

  /** What is under this key of the inputs, if anything. */
  function At(inputs: map<string, Input>, key: string): Option<Input> {
    if key in inputs then Some(inputs[key]) else None
  }

  /** The inputs are those of the objects found, under their prefixed names, and nothing else. */
  ghost predicate Gathers(inputs: map<string, Input>, s: Store, namespace: string, found: Found) {
    && (forall n :: n in found.secrets ==> At(inputs, SECRET + n) == SecretAt(s, namespace, n))
    && (forall n :: n in found.configs ==> At(inputs, CONFIG + n) == ConfigAt(s, namespace, n))
    && (forall k :: k in inputs ==>
          || (exists n :: n in found.secrets && k == SECRET + n)
          || (exists n :: n in found.configs && k == CONFIG + n))
  }

  /** No object is missing but optional ones. */
  ghost predicate AllThere(s: Store, namespace: string, found: Found) {
    && (forall n :: n in found.secrets && !found.secrets[n] ==> SecretAt(s, namespace, n).Some?)
    && (forall n :: n in found.configs && !found.configs[n] ==> ConfigAt(s, namespace, n).Some?)
  }

  lemma PrefixesApart(m: string, n: string)
    ensures SECRET + m != CONFIG + n
    ensures SECRET + m == SECRET + n <==> m == n
    ensures CONFIG + m == CONFIG + n <==> m == n
  {
    assert (SECRET + m)[0] == 's' && (CONFIG + n)[0] == 'c';
    assert (SECRET + m)[|SECRET|..] == m && (SECRET + n)[|SECRET|..] == n;
    assert (CONFIG + m)[|CONFIG|..] == m && (CONFIG + n)[|CONFIG|..] == n;
  }

  class Template {
    var value: PodTemplate

    constructor (value: PodTemplate)
      ensures this.value == value
    {
      this.value := value;
    }
  }

  method GatherSecrets(s: Store, namespace: string, secrets: Flags) returns (inputs: map<string, Input>, missing: Option<string>)
    ensures missing.None? <==> AllThere(s, namespace, Found(secrets, map[]))
    ensures missing.None? ==> Gathers(inputs, s, namespace, Found(secrets, map[]))
  {
    inputs := map[];
    var left := secrets.Keys;
    while left != {}
      invariant left <= secrets.Keys
      invariant forall n :: n in secrets ==> At(inputs, SECRET + n) == if n in left then None else SecretAt(s, namespace, n)
      invariant forall n :: n in secrets && n !in left && !secrets[n] ==> SecretAt(s, namespace, n).Some?
      invariant forall k :: k in inputs ==> exists n :: n in secrets && k == SECRET + n
      decreases left
    {
      var name :| name in left;
      left := left - {name};
      var input := SecretAt(s, namespace, name);
      if secrets[name] && input.None? {
        continue;
      }
      if input.None? {
        return inputs, Some(name);
      }
      forall n ensures SECRET + n == SECRET + name <==> n == name {
        PrefixesApart(n, name);
      }
      inputs := inputs[SECRET + name := input.value];
    }
    return inputs, None;
  }

  method GatherConfigs(s: Store, namespace: string, found: Found, secretInputs: map<string, Input>)
    returns (inputs: map<string, Input>, missing: Option<string>)
    requires Gathers(secretInputs, s, namespace, Found(found.secrets, map[]))
    ensures missing.None? <==> AllThere(s, namespace, Found(map[], found.configs))
    ensures missing.None? ==> Gathers(inputs, s, namespace, found)
  {
    inputs := secretInputs;
    var left := found.configs.Keys;
    forall m, n ensures SECRET + m != CONFIG + n {
      PrefixesApart(m, n);
    }
    while left != {}
      invariant left <= found.configs.Keys
      invariant forall n :: n in found.secrets ==> At(inputs, SECRET + n) == SecretAt(s, namespace, n)
      invariant forall n :: n in found.configs ==>
        At(inputs, CONFIG + n) == if n in left then None else ConfigAt(s, namespace, n)
      invariant forall n :: n in found.configs && n !in left && !found.configs[n] ==> ConfigAt(s, namespace, n).Some?
      invariant forall k :: k in inputs ==>
        (exists n :: n in found.secrets && k == SECRET + n) || (exists n :: n in found.configs && k == CONFIG + n)
      decreases left
    {
      var name :| name in left;
      left := left - {name};
      var input := ConfigAt(s, namespace, name);
      if found.configs[name] && input.None? {
        continue;
      }
      if input.None? {
        return inputs, Some(name);
      }
      forall n ensures CONFIG + n == CONFIG + name <==> n == name {
        PrefixesApart(n, name);
      }
      inputs := inputs[CONFIG + name := input.value];
    }
    return inputs, None;
  }

  /**
   Fails exactly when an object is missing that is not optional; otherwise annotates the
   template with the hash of all that was found, and changes nothing else.
   */
  method StampInputs(s: Store, namespace: string, pod: Template, digest: Digest) returns (missing: Option<string>)
    modifies pod
    ensures missing.None? <==> AllThere(s, namespace, FoundIn(PodUses(old(pod.value))))
    ensures missing.Some? ==> pod.value == old(pod.value)
    ensures missing.None? ==> exists inputs ::
      && Gathers(inputs, s, namespace, FoundIn(PodUses(old(pod.value))))
      && pod.value == old(pod.value).(annotations := old(pod.value.annotations)[INPUTS_HASH := digest(inputs)])
  {
    var found := PodInputs(pod.value);
    var inputs;
    inputs, missing := GatherSecrets(s, namespace, found.secrets);
    if missing.Some? {
      return;
    }
    inputs, missing := GatherConfigs(s, namespace, found, inputs);
    if missing.Some? {
      return;
    }
    pod.value := pod.value.(annotations := pod.value.annotations[INPUTS_HASH := digest(inputs)]);
  }

  /** Presence and data of every object the pod refers to are the same. */
  ghost predicate SameObjects(s: Store, t: Store, namespace: string, found: Found) {
    && (forall n :: n in found.secrets ==> SecretAt(s, namespace, n) == SecretAt(t, namespace, n))
    && (forall n :: n in found.configs ==> ConfigAt(s, namespace, n) == ConfigAt(t, namespace, n))
  }

  lemma SameKeys(i: map<string, Input>, j: map<string, Input>, s: Store, t: Store, namespace: string, found: Found, k: string)
    requires Gathers(i, s, namespace, found) && Gathers(j, t, namespace, found) && SameObjects(s, t, namespace, found)
    ensures At(i, k) == At(j, k)
  {
    if k in i || k in j {
      var n :| (n in found.secrets && k == SECRET + n) || (n in found.configs && k == CONFIG + n);
    }
  }

  /**
   Two stamps on one template agree exactly when presence and data of all the objects it
   refers to agree, or the digest collides.
   */
  lemma StampsAgree(digest: Digest, i: map<string, Input>, j: map<string, Input>, s: Store, t: Store, namespace: string, found: Found)
    requires Gathers(i, s, namespace, found) && Gathers(j, t, namespace, found)
    ensures digest(i) == digest(j) <==> SameObjects(s, t, namespace, found) || (i != j && digest(i) == digest(j))
  {
    if i == j {
      forall n | n in found.secrets ensures SecretAt(s, namespace, n) == SecretAt(t, namespace, n) {
        assert At(i, SECRET + n) == At(j, SECRET + n);
      }
      forall n | n in found.configs ensures ConfigAt(s, namespace, n) == ConfigAt(t, namespace, n) {
        assert At(i, CONFIG + n) == At(j, CONFIG + n);
      }
    }
    hide SecretAt, ConfigAt, Gathers;
    if SameObjects(s, t, namespace, found) {
      forall k ensures At(i, k) == At(j, k) {
        SameKeys(i, j, s, t, namespace, found, k);
      }
      assert forall k :: k in i <==> At(i, k).Some?;
      assert forall k :: k in j <==> At(j, k).Some?;
      assert i.Keys == j.Keys;
      assert forall k :: k in i ==> Some(i[k]) == At(i, k);
    }
  }
}
