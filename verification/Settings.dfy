/** The settings the protocols depend on, and the key names built from them. */
module Settings {

  const MAX_ID_LEN := 64

  // A conversation id under which messages are handled: the handshake requires one, and the
  // schema and the endpoint bound its length.
  type Cid = s: string | 1 <= |s| <= MAX_ID_LEN witness "c"

  // An id under which the lease is claimed: the handshake does that before any length check.
  type LeaseId = s: string | 1 <= |s| witness "c"

  datatype Config = Config(
    seqPrefix: string,
    leasePrefix: string,
    activeTtl: int,
    finalTtl: int,
    guardTtl: int,
    refreshInterval: real)
  {
    // What a Settings object guarantees once its validators have accepted it.
    predicate Accepted() {
      && seqPrefix != "" && leasePrefix != ""
      && 0 < finalTtl <= activeTtl
      && 0 < guardTtl
      && 0.0 < refreshInterval < guardTtl as real
    }

    // Not checked by the settings: no key of one namespace is ever a key of the other. A longer
    // lease prefix does no harm if what it adds leaves a bounded id no room for it.
    predicate Apart() {
      && !(leasePrefix + ":" <= seqPrefix + ":")
      && (seqPrefix + ":" <= leasePrefix + ":" ==> MAX_ID_LEN <= |leasePrefix| - |seqPrefix|)
    }
  }

  function Key(prefix: string, cid: string): string {
    prefix + ":" + cid
  }

  function SeqKey(cfg: Config, cid: Cid): string {
    Key(cfg.seqPrefix, cid)
  }

  function LeaseKey(cfg: Config, cid: LeaseId): string {
    Key(cfg.leasePrefix, cid)
  }

  lemma KeyInjective(prefix: string, c: string, d: string)
    requires Key(prefix, c) == Key(prefix, d)
    ensures c == d
  {
    assert c == Key(prefix, c)[|prefix + ":"|..];
    assert d == Key(prefix, d)[|prefix + ":"|..];
  }

  /** Two equal keys: one prefix, with its colon, is the start of the other. */
  lemma PrefixesNest(p: string, q: string, c: string, d: string)
    requires Key(p, c) == Key(q, d)
    ensures |p| <= |q| ==> p + ":" <= q + ":" && |c| == |d| + |q| - |p|
    ensures |q| <= |p| ==> q + ":" <= p + ":"
  {
    var k := Key(p, c);
    assert p + ":" == k[..|p + ":"|];
    assert q + ":" == k[..|q + ":"|];
    if |p| <= |q| {
      assert k[..|p + ":"|] == k[..|q + ":"|][..|p + ":"|];
    }
    if |q| <= |p| {
      assert k[..|q + ":"|] == k[..|p + ":"|][..|q + ":"|];
    }
  }

  lemma ApartKeysDiffer(cfg: Config, c: Cid, d: LeaseId)
    requires cfg.Apart()
    ensures SeqKey(cfg, c) != LeaseKey(cfg, d)
  {
    if SeqKey(cfg, c) == LeaseKey(cfg, d) {
      PrefixesNest(cfg.seqPrefix, cfg.leasePrefix, c, d);
    }
  }

  /** Two ids the service does accept and whose keys are one, when the prefixes are not apart. */
  lemma CollidingIds(cfg: Config) returns (c: Cid, d: LeaseId)
    requires !cfg.Apart()
    ensures SeqKey(cfg, c) == LeaseKey(cfg, d)
  {
    var p, q := cfg.seqPrefix + ":", cfg.leasePrefix + ":";
    if q <= p {
      c, d := "c", p[|q|..] + "c";
      assert q + (p[|q|..] + "c") == p + "c";
    } else {
      c, d := q[|p|..] + "c", "c";
      assert p + (q[|p|..] + "c") == q + "c";
    }
  }

  /** Accepting the settings does not set the namespaces apart. */
  lemma AcceptedYetNotApart() returns (cfg: Config, c: Cid, d: LeaseId)
    ensures cfg.Accepted() && !cfg.Apart() && SeqKey(cfg, c) == LeaseKey(cfg, d)
  {
    cfg := Config("p", "p", 10, 5, 10, 1.0);
    c, d := CollidingIds(cfg);
  }

  /** Over the ids the service accepts, the namespaces are disjoint exactly under Apart. */
  lemma NamespacesDisjointIffApart(cfg: Config)
    ensures cfg.Apart() <==> forall c: Cid, d: LeaseId :: SeqKey(cfg, c) != LeaseKey(cfg, d)
  {
    if cfg.Apart() {
      forall c: Cid, d: LeaseId ensures SeqKey(cfg, c) != LeaseKey(cfg, d) {
        ApartKeysDiffer(cfg, c, d);
      }
    } else {
      var c, d := CollidingIds(cfg);
    }
  }

  /** Key separation in the form the protocol proofs use. */
  lemma KeysSeparate(cfg: Config)
    ensures forall c: Cid, d: Cid {:trigger SeqKey(cfg, c), SeqKey(cfg, d)} ::
              SeqKey(cfg, c) == SeqKey(cfg, d) ==> c == d
    ensures forall c: LeaseId, d: LeaseId {:trigger LeaseKey(cfg, c), LeaseKey(cfg, d)} ::
              LeaseKey(cfg, c) == LeaseKey(cfg, d) ==> c == d
    ensures cfg.Apart() ==> forall c: Cid, d: LeaseId {:trigger SeqKey(cfg, c), LeaseKey(cfg, d)} ::
              SeqKey(cfg, c) != LeaseKey(cfg, d)
  {
    forall c: Cid, d: Cid | SeqKey(cfg, c) == SeqKey(cfg, d) ensures c == d {
      KeyInjective(cfg.seqPrefix, c, d);
    }
    forall c: LeaseId, d: LeaseId | LeaseKey(cfg, c) == LeaseKey(cfg, d) ensures c == d {
      KeyInjective(cfg.leasePrefix, c, d);
    }
    NamespacesDisjointIffApart(cfg);
  }
}
