/** Reading secrets, as all three controllers do. */
module Secrets {
  import opened Resources
  import opened Builders
  import opened Protocol
  import opened Calls
  import opened Clusters

  /** The worker of `ctx` works on `o`, has read `got`, and reads `need` next. */
  ghost predicate Next(cluster: Cluster, ctx: Key, o: Object, ver: nat, got: seq<string>, need: Need)
    reads cluster
  {
    cluster.At(ctx, o, Gathering(ver, got)) && |got| < |Plan(o.spec)| && Plan(o.spec)[|got|] == need
  }

  /** The cache shows this value for this key of the secret of this name. */
  ghost predicate Shows(cluster: Cluster, namespace: string, ref: SecretKeyRef, value: string)
    reads cluster
  {
    var id := SecretId(namespace, ref.name, ref.key);
    id in cluster.state.secrets && cluster.state.secrets[id] == value
  }

  /** The value of a secret key of the caller's namespace. */
  method ResolveSecretRef(cluster: Cluster, ctx: Key, namespace: string, ref: SecretKeyRef,
                          ghost o: Object, ghost ver: nat, ghost got: seq<string>)
    returns (value: Option<string>, text: string)
    requires cluster.Valid() && Next(cluster, ctx, o, ver, got, Value(ref)) && namespace == ctx.namespace
    modifies cluster
    ensures cluster.Valid() && Extends(old(cluster.trace), cluster.trace, ctx)
    ensures cluster.At(ctx, o, if value.Some? then Gathering(ver, got + [value.value])
                               else Reporting(ver, Failure(o, SECRET, text, o.status.id)))
    ensures value.Some? ==> Shows(cluster, namespace, ref, value.value)
  {
    hide Plan, Failure;
    var err, data;
    err, data, text := cluster.GetSecret(ctx, namespace, ref);
    if err { return None, text; }
    if ref.key !in data { return None, text; }
    return Some(data[ref.key]), text;
  }

  /** A secret that may not be referred to; it is the empty string then. */
  method ResolveOptional(cluster: Cluster, ctx: Key, namespace: string, ref: Option<SecretKeyRef>,
                         ghost o: Object, ghost ver: nat, ghost got: seq<string>)
    returns (err: bool, value: string, text: string)
    requires cluster.Valid() && cluster.At(ctx, o, Gathering(ver, got)) && namespace == ctx.namespace
    requires ref.Some? ==> Next(cluster, ctx, o, ver, got, Value(ref.value))
    modifies cluster
    ensures cluster.Valid() && Extends(old(cluster.trace), cluster.trace, ctx)
    ensures if err then cluster.At(ctx, o, Reporting(ver, Failure(o, SECRET, text, o.status.id)))
            else cluster.At(ctx, o, Gathering(ver, got + if ref.Some? then [value] else []))
    ensures !err ==> if ref.None? then value == "" else Shows(cluster, namespace, ref.value, value)
  {
    hide Plan, Failure;
    if ref.None? {
      assert got + [] == got;
      return false, "", "";
    }
    var found;
    found, text := ResolveSecretRef(cluster, ctx, namespace, ref.value, o, ver, got);
    if found.None? { return true, "", text; }
    return false, found.value, "";
  }

  /** The code refuses the spec of the caller's object by itself. */
  method Refuse(cluster: Cluster, ctx: Key, ghost o: Object, ghost ver: nat, ghost got: seq<string>) returns (text: string)
    requires cluster.Valid() && Next(cluster, ctx, o, ver, got, Reject(SECRET))
    modifies cluster
    ensures cluster.Valid() && Extends(old(cluster.trace), cluster.trace, ctx)
    ensures cluster.At(ctx, o, Reporting(ver, Failure(o, SECRET, text, o.status.id)))
  {
    hide Plan, Failure;
    text := cluster.Refuse(ctx, SECRET);
    assert SECRET[0] != UNSUPPORTED[0];
  }
}
