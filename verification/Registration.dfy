/** Registered buffers: the table `accept` builds and sends, and the maps both ends look them up in. */
module Registration {
  import opened Bytes
  import opened Codec

  /** A GPU buffer with the remote key its registration returned. */
  datatype GpuBuffer = GpuBuffer(base: u64, size: nat, rkey: u32)

  function TableOf(bufs: seq<GpuBuffer>): (t: seq<Connection>)
    ensures |t| == |bufs|
    ensures forall i :: 0 <= i < |t| ==> t[i] == Connection(bufs[i].base, bufs[i].rkey)
  {
    if bufs == [] then [] else
      var b := bufs[|bufs| - 1];
      TableOf(bufs[..|bufs| - 1]) + [Connection(b.base, b.rkey)]
  }

  /** `HashMap::insert` for every buffer in turn. */
  function LocalMap(bufs: seq<GpuBuffer>): map<u64, GpuBuffer> {
    if bufs == [] then map[] else
      var b := bufs[|bufs| - 1];
      LocalMap(bufs[..|bufs| - 1])[b.base := b]
  }

  function RemoteMap(conns: seq<Connection>): map<u64, Connection> {
    if conns == [] then map[] else
      var c := conns[|conns| - 1];
      RemoteMap(conns[..|conns| - 1])[c.basePtr := c]
  }

  /** The table of a host. */
  function RemoteOf(bufs: seq<GpuBuffer>): map<u64, Connection> {
    RemoteMap(TableOf(bufs))
  }

  /** The local map holds, for every base address, the last buffer registered there. */
  lemma {:induction false} LocalMapLastWins(bufs: seq<GpuBuffer>, k: u64)
    ensures k in LocalMap(bufs) <==> exists i :: 0 <= i < |bufs| && bufs[i].base == k
    ensures k in LocalMap(bufs) ==>
              exists i :: 0 <= i < |bufs| && bufs[i].base == k && LocalMap(bufs)[k] == bufs[i]
                          && forall j :: i < j < |bufs| ==> bufs[j].base != k
  {
    if bufs == [] {
    } else {
      var n := |bufs| - 1;
      LocalMapLastWins(bufs[..n], k);
      if bufs[n].base != k && k in LocalMap(bufs) {
        var i :| 0 <= i < n && bufs[..n][i].base == k && LocalMap(bufs[..n])[k] == bufs[..n][i]
                 && forall j :: i < j < n ==> bufs[..n][j].base != k;
        assert bufs[i].base == k;
        forall j | i < j < |bufs|
          ensures bufs[j].base != k
        {
          assert j < n ==> bufs[..n][j] == bufs[j];
        }
      }
    }
  }

  /** The map the client builds from the received table agrees with the map the server keeps, base
      address by base address, whichever base addresses repeat. */
  lemma {:induction false} RemoteAgreesWithLocal(bufs: seq<GpuBuffer>)
    ensures RemoteOf(bufs).Keys == LocalMap(bufs).Keys
    ensures forall k :: k in RemoteOf(bufs) ==>
                          k in LocalMap(bufs) && LocalMap(bufs)[k].base == k
                          && RemoteOf(bufs)[k] == Connection(k, LocalMap(bufs)[k].rkey)
  {
    if bufs == [] {
    } else {
      var n := |bufs| - 1;
      RemoteAgreesWithLocal(bufs[..n]);
      assert TableOf(bufs)[..n] == TableOf(bufs[..n]);
    }
  }

  /** The loop of `accept`. */
  method RegisterBuffers(bufs: seq<GpuBuffer>) returns (conns: seq<Connection>, local: map<u64, GpuBuffer>)
    ensures conns == TableOf(bufs)
    ensures local == LocalMap(bufs)
  {
    conns, local := [], map[];
    for i := 0 to |bufs|
      invariant conns == TableOf(bufs[..i])
      invariant local == LocalMap(bufs[..i])
    {
      assert bufs[..i + 1][..i] == bufs[..i];
      conns := conns + [Connection(bufs[i].base, bufs[i].rkey)];
      local := local[bufs[i].base := bufs[i]];
    }
    assert bufs[..|bufs|] == bufs;
  }

  /** The loop of `connect` over the decoded table. */
  method CollectRemote(conns: seq<Connection>) returns (remote: map<u64, Connection>)
    ensures remote == RemoteMap(conns)
  {
    remote := map[];
    for i := 0 to |conns|
      invariant remote == RemoteMap(conns[..i])
    {
      assert conns[..i + 1][..i] == conns[..i];
      remote := remote[conns[i].basePtr := conns[i]];
    }
    assert conns[..|conns|] == conns;
  }
}
