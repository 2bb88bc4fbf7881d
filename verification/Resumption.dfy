/** What an interrupted update leaves behind: a session on the device, and frames on the line that
    reach the device only when the next update has already begun. */
module Resumption {
  import opened Wire
  import opened Crc32
  import opened Simulator
  import opened LossyLink
  import U = Upgrade

  /** The image that goes by a label, for the labels of all updates there are. */
  type Library = Label -> Option<seq<byte>>

  ghost predicate Listed(lib: Library, a: U.State) {
    lib(LabelOf(a)) == Some(a.image)
  }

  /** A session that an update can resume holds the beginning of that update's image. */
  ghost predicate Shelved(d: Sim, lib: Library) {
    !d.failVerify && (d.upgrading ==> HoldsListed(d, lib))
  }

  /** What the device has of its session's image is the beginning of the image its label stands for, if
      it stands for one. */
  ghost predicate HoldsListed(d: Sim, lib: Library) {
    match lib(SessionLabel(d))
    case None => true
    case Some(image) => |image| == |d.flash| ==> Begun(image, d)
  }

  /** Whichever of the frames the device gets to handle, its session stays one to resume. */
  ghost predicate Calm(d: Sim, q: seq<Frame>, lib: Library)
    decreases |q|
  {
    && Shelved(d, lib)
    && (q != [] ==> Calm(d, q[1..], lib) && forall env :: Calm(Respond(d, q[0], env).0, q[1..], lib))
  }

  lemma {:induction false} CalmWithout(d: Sim, q: seq<Frame>, i: nat, lib: Library)
    requires Calm(d, q, lib)
    ensures Calm(d, Without(q, i), lib)
    decreases |q|
  {
    hide Shelved, Respond;
    if 0 < i < |q| {
      var r := Without(q, i);
      assert r[1..] == Without(q[1..], i - 1);
      CalmWithout(d, q[1..], i - 1, lib);
      forall env
        ensures Calm(Respond(d, r[0], env).0, r[1..], lib)
      {
        CalmWithout(Respond(d, q[0], env).0, q[1..], i - 1, lib);
      }
    } else if i == 0 && q != [] {
      assert Without(q, 0) == q[1..];
    }
  }

  /** The bytes of a FW_DATA payload are those that any listed image has at their offset. */
  ghost predicate Truthful(payload: seq<byte>, lib: Library) {
    |payload| <= 8 || forall m :: lib(m).Some? ==> Agrees(payload, lib(m).value)
  }

  ghost predicate Agrees(payload: seq<byte>, image: seq<byte>)
    requires |payload| > 8
  {
    var (offset, data) := (GetLe32(payload[4..]), payload[8..]);
    offset + |data| <= |image| ==> image[offset..offset + |data|] == data
  }

  /** A frame that can do no harm to a session, whoever sends it: anything but a chunk of something else. */
  ghost predicate Fine(f: Frame, lib: Library) {
    f.kind == FW_DATA ==> Truthful(f.payload, lib)
  }

  /** The device would store bytes at its offset that its session's image does not have there. */
  ghost predicate Spoils(d: Sim, f: Frame, lib: Library) {
    && f.kind == FW_DATA && d.upgrading && |f.payload| > 8 && GetLe32(f.payload) == d.sessionId
    && var (offset, data) := (GetLe32(f.payload[4..]), f.payload[8..]);
       && offset == d.offset && |data| <= d.chunkSize && offset + |data| <= |d.flash|
       && lib(SessionLabel(d)).Some? && |lib(SessionLabel(d)).value| == |d.flash|
       && lib(SessionLabel(d)).value[offset..offset + |data|] != data
  }

  /** Handling a request leaves a resumable session resumable exactly unless it is such a chunk. */
  lemma StaysResumable(d: Sim, f: Frame, env: DeviceEnv, lib: Library)
    requires Shelved(d, lib)
    ensures Shelved(Respond(d, f, env).0, lib) <==> !Spoils(d, f, lib)
  {
    hide Checksum, GetLe32, GetLe16, PutLe32, PutLe16, StringAt, HandleData, HandleBegin;
    if f.kind == FW_DATA {
      DataResumable(d, f, lib);
    } else if f.kind == FW_BEGIN {
      BeginResumable(d, f, env.heap, lib);
    }
  }

  lemma BeginResumable(d: Sim, f: Frame, heap: Heap, lib: Library)
    requires Shelved(d, lib)
    ensures Shelved(HandleBegin(d, f, heap).0, lib)
  {
    hide Checksum, GetLe32, GetLe16, PutLe32, PutLe16, StringAt, Allocate;
  }

  lemma DataResumable(d: Sim, f: Frame, lib: Library)
    requires Shelved(d, lib) && f.kind == FW_DATA
    ensures Shelved(HandleData(d, f).0, lib) <==> !Spoils(d, f, lib)
  {
    hide GetLe32, PutLe32, PutLe16, Splice;
    var e := HandleData(d, f).0;
    if e != d {
      var data := f.payload[8..];
      assert e == d.(flash := Splice(d.flash, d.offset, data), offset := d.offset + |data|);
      assert SessionLabel(e) == SessionLabel(d);
      SpliceParts(d.flash, d.offset, data);
      var listed := lib(SessionLabel(d));
      if listed.Some? && |listed.value| == |d.flash| {
        PrefixGrows(d.flash[..d.offset], data, listed.value);
      }
    }
  }

  lemma PrefixGrows(prefix: seq<byte>, data: seq<byte>, image: seq<byte>)
    requires |prefix| + |data| <= |image| && prefix == image[..|prefix|]
    ensures prefix + data == image[..|prefix| + |data|] <==> data == image[|prefix|..|prefix| + |data|]
  {
    assert image[..|prefix| + |data|] == image[..|prefix|] + image[|prefix|..|prefix| + |data|];
  }

  lemma FineNeverSpoils(d: Sim, f: Frame, lib: Library)
    requires Fine(f, lib)
    ensures !Spoils(d, f, lib)
  {
    hide GetLe32;
  }

  lemma {:induction false} CalmAppend(d: Sim, q: seq<Frame>, f: Frame, lib: Library)
    requires Calm(d, q, lib) && Fine(f, lib)
    ensures Calm(d, q + [f], lib)
    decreases |q|
  {
    hide Respond, Shelved, Fine, Spoils;
    var r := q + [f];
    if q == [] {
      assert r[1..] == [];
      forall env
        ensures Calm(Respond(d, r[0], env).0, r[1..], lib)
      {
        FineNeverSpoils(d, f, lib);
        StaysResumable(d, f, env, lib);
      }
    } else {
      assert r[1..] == q[1..] + [f];
      CalmAppend(d, q[1..], f, lib);
      forall env
        ensures Calm(Respond(d, r[0], env).0, r[1..], lib)
      {
        CalmAppend(Respond(d, q[0], env).0, q[1..], f, lib);
      }
    }
  }

  /** A request and the same one sent again. */
  predicate SameRequest(f: Frame, g: Frame) {
    f.kind == g.kind && f.payload == g.payload
  }

  lemma SameEffect(d: Sim, f: Frame, g: Frame, env: DeviceEnv)
    requires SameRequest(f, g)
    ensures Respond(d, f, env).0 == Respond(d, g, env).0
  {
    hide GetLe32, PutLe32, PutLe16, Checksum, HandleBegin, HandleData;
    if f.kind == FW_BEGIN {
      SameBegin(d, f, g, env.heap);
    } else if f.kind == FW_DATA {
      SameData(d, f, g);
    }
  }

  lemma SameBegin(d: Sim, f: Frame, g: Frame, heap: Heap)
    requires SameRequest(f, g)
    ensures HandleBegin(d, f, heap).0 == HandleBegin(d, g, heap).0
  {
    hide GetLe32, GetLe16, PutLe32, PutLe16, StringAt, OpenSession;
  }

  lemma SameData(d: Sim, f: Frame, g: Frame)
    requires SameRequest(f, g)
    ensures HandleData(d, f).0 == HandleData(d, g).0
  {
    hide GetLe32, PutLe32, PutLe16, Splice;
  }

  lemma {:induction false} CalmSame(d: Sim, q: seq<Frame>, f: Frame, g: Frame, lib: Library)
    requires Calm(d, q + [f], lib) && SameRequest(f, g)
    ensures Calm(d, q + [g], lib)
    decreases |q|
  {
    hide Respond, Shelved, SameRequest;
    var r, t := q + [f], q + [g];
    if q == [] {
      assert r[1..] == [] && t[1..] == [];
      forall env
        ensures Calm(Respond(d, t[0], env).0, t[1..], lib)
      {
        SameEffect(d, f, g, env);
        assert Calm(Respond(d, r[0], env).0, r[1..], lib);
      }
    } else {
      assert r[1..] == q[1..] + [f] && t[1..] == q[1..] + [g];
      CalmSame(d, q[1..], f, g, lib);
      forall env
        ensures Calm(Respond(d, t[0], env).0, t[1..], lib)
      {
        assert Calm(Respond(d, r[0], env).0, r[1..], lib);
        CalmSame(Respond(d, q[0], env).0, q[1..], f, g, lib);
      }
    }
  }

  /** Handling a request again does no more harm than handling it once. */
  lemma AgainResumable(d: Sim, f: Frame, env: DeviceEnv, later: DeviceEnv, lib: Library)
    requires Shelved(Respond(d, f, env).0, lib)
    ensures Shelved(Respond(Respond(d, f, env).0, f, later).0, lib)
  {
    var e := Respond(d, f, env).0;
    StaysResumable(e, f, later, lib);
    if f.kind == FW_DATA {
      DataTwice(d, f, f);
    }
    hide GetLe32, PutLe32, PutLe16, HandleData, Spoils, Shelved;
  }

  lemma {:induction false} CalmTwice(d: Sim, q: seq<Frame>, f: Frame, lib: Library)
    requires Calm(d, q + [f], lib)
    ensures Calm(d, q + [f] + [f], lib)
    decreases |q|
  {
    hide Respond, Shelved;
    var r, t := q + [f], q + [f] + [f];
    if q == [] {
      assert r[1..] == [] && t[1..] == [f] && r == [f];
      forall env
        ensures Calm(Respond(d, t[0], env).0, t[1..], lib)
      {
        var e := Respond(d, f, env).0;
        assert Calm(Respond(d, r[0], env).0, r[1..], lib);
        forall later
          ensures Calm(Respond(e, f, later).0, [], lib)
        {
          AgainResumable(d, f, env, later, lib);
        }
        assert [f][1..] == [];
      }
    } else {
      assert r[1..] == q[1..] + [f] && t[1..] == q[1..] + [f] + [f];
      CalmTwice(d, q[1..], f, lib);
      forall env
        ensures Calm(Respond(d, t[0], env).0, t[1..], lib)
      {
        assert Calm(Respond(d, r[0], env).0, r[1..], lib);
        CalmTwice(Respond(d, q[0], env).0, q[1..], f, lib);
      }
    }
  }

  lemma CalmPrefix(d: Sim, q: seq<Frame>, f: Frame, lib: Library)
    requires Calm(d, q + [f], lib)
    ensures Calm(d, q, lib)
  {
    hide Calm;
    CalmWithout(d, q + [f], |q|, lib);
    assert Without(q + [f], |q|) == q;
  }

  /** REBOOT is followed by nothing else. */
  ghost predicate Closing(q: seq<Frame>) {
    forall i, j :: 0 <= i < j < |q| && q[i].kind == REBOOT ==> q[j].kind == REBOOT
  }

  ghost predicate AllOk(q: seq<Frame>, a: U.State) {
    forall i :: 0 <= i < |q| ==> RequestOk(q[i], a)
  }

  lemma StaysShelved(a: U.State, d: Sim, f: Frame, heap: Heap, rest: seq<Frame>, lib: Library)
    requires Sound(a) && Listed(lib, a) && Shelved(d, lib) && RequestOk(f, a) && IsUpdate(f.kind)
    requires DeviceOk(a, d, [f] + rest) && DeviceOk(a, Handle(d, f, heap).0, rest)
    ensures Shelved(Handle(d, f, heap).0, lib)
  {
    hide Checksum, GetLe32, GetLe16, PutLe32, PutLe16, HandleData, StringAt, U.Good;
    if Rank(a.phase) < 2 {
      BeginFields(a);
    }
  }

  /** The frames of an update are such frames, at every point of it. */
  lemma {:induction false} RequestsAreCalm(a: U.State, d: Sim, q: seq<Frame>, lib: Library)
    requires Sound(a) && Listed(lib, a) && Shelved(d, lib) && DeviceOk(a, d, q) && AllOk(q, a) && Closing(q)
    ensures Calm(d, q, lib)
    decreases |q|
  {
    hide Sound, Listed, Shelved, DeviceOk, RequestOk, Handle, Serves;
    if q != [] {
      var f, rest := q[0], q[1..];
      assert q == [f] + rest && AllOk(rest, a) && Closing(rest);
      assert f.kind == REBOOT ==> AllReboot(rest);
      QueueShortens(a, d, f, rest);
      RequestsAreCalm(a, d, rest, lib);
      forall env
        ensures Calm(Respond(d, f, env).0, rest, lib)
      {
        ServesRequest(a, d, f, env.heap, rest);
        assert DeviceOk(a, Handle(d, f, env.heap).0, rest) by { ServedKeeps(a, d, f, env.heap, rest); }
        StaysShelved(a, d, f, env.heap, rest, lib);
        RequestsAreCalm(a, Handle(d, f, env.heap).0, rest, lib);
      }
    }
  }

  lemma ServedKeeps(a: U.State, d: Sim, f: Frame, heap: Heap, rest: seq<Frame>)
    requires Sound(a) && IsUpdate(f.kind) && Serves(a, d, f, heap, rest)
    ensures DeviceOk(a, Handle(d, f, heap).0, rest)
  {
    hide Sound, DeviceOk, Handle;
  }
}
