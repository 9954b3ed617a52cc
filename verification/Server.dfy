/** An upload resource on a TUS server, seen from the wire. A PATCH, once sent, may arrive at
    any later moment, any number of times, and a prefix of its body may be kept; it is applied
    only if its offset is the stored length. */
module Server {
  import opened UploadTypes

  datatype Patch = Patch(offset: nat, body: Bytes)

  /** The accepted bytes, and every PATCH sent so far. */
  datatype Resource = Resource(stored: Bytes, sent: set<Patch>)

  /** One arrival: `kept` bytes of the body survive. */
  datatype Arrival = Arrival(patch: Patch, kept: nat)

  function Arrive(r: Resource, a: Arrival): Resource {
    if a.patch in r.sent && a.patch.offset == |r.stored| && a.kept <= |a.patch.body|
    then r.(stored := r.stored + a.patch.body[..a.kept])
    else r
  }

  function ArriveAll(r: Resource, arrivals: seq<Arrival>): Resource
    decreases arrivals
  {
    if arrivals == [] then r else ArriveAll(Arrive(r, arrivals[0]), arrivals[1..])
  }

  lemma {:induction false} ArriveLast(r: Resource, arrivals: seq<Arrival>, last: Arrival)
    ensures ArriveAll(r, arrivals + [last]) == Arrive(ArriveAll(r, arrivals), last)
    decreases arrivals
  {
    if arrivals == [] {
      assert [last][1..] == [];
      assert arrivals + [last] == [last];
    } else {
      ArriveLast(Arrive(r, arrivals[0]), arrivals[1..], last);
      assert (arrivals + [last])[1..] == arrivals[1..] + [last];
    }
  }

  /** Whatever arrives, nothing stored is lost and no request is forgotten. */
  lemma {:induction false} ArrivalsGrow(r: Resource, arrivals: seq<Arrival>)
    ensures r.stored <= ArriveAll(r, arrivals).stored && ArriveAll(r, arrivals).sent == r.sent
    decreases arrivals
  {
    if arrivals != [] {
      ArrivalsGrow(Arrive(r, arrivals[0]), arrivals[1..]);
    }
  }

  /** `b` may follow `a` without a new request. */
  ghost predicate Reaches(a: Resource, b: Resource) {
    exists arrivals :: ArriveAll(a, arrivals) == b
  }

  lemma ReachesBy(a: Resource, arrivals: seq<Arrival>)
    ensures Reaches(a, ArriveAll(a, arrivals))
  {
  }

  predicate IsSlice(file: Bytes, p: Patch) {
    p.offset + |p.body| <= |file| && p.body == file[p.offset..p.offset + |p.body|]
  }

  /** The stored bytes begin the file, and nothing on the wire could ever change that. */
  predicate Faithful(file: Bytes, r: Resource) {
    r.stored <= file && forall p | p in r.sent :: IsSlice(file, p)
  }

  lemma ArriveFaithful(file: Bytes, r: Resource, a: Arrival)
    requires Faithful(file, r)
    ensures Faithful(file, Arrive(r, a))
    ensures r.stored <= Arrive(r, a).stored
  {
    if Arrive(r, a) != r {
      var n := |r.stored|;
      assert IsSlice(file, a.patch);
      assert a.patch.body[..a.kept] == file[n..n + a.kept];
      assert r.stored == file[..n];
      assert Arrive(r, a).stored == file[..n + a.kept];
    }
  }

  /** Loss, delay, duplication and partial acceptance of slices keep a prefix of the file. */
  lemma {:induction false} ArrivalsFaithful(file: Bytes, r: Resource, arrivals: seq<Arrival>)
    requires Faithful(file, r)
    ensures Faithful(file, ArriveAll(r, arrivals))
    ensures r.stored <= ArriveAll(r, arrivals).stored
    decreases arrivals
  {
    if arrivals != [] {
      ArriveFaithful(file, r, arrivals[0]);
      ArrivalsFaithful(file, Arrive(r, arrivals[0]), arrivals[1..]);
    }
  }

  lemma ReachesFaithful(file: Bytes, a: Resource, b: Resource)
    requires Faithful(file, a) && Reaches(a, b)
    ensures Faithful(file, b) && a.stored <= b.stored && |a.stored| <= |b.stored| <= |file|
  {
    var arrivals :| ArriveAll(a, arrivals) == b;
    ArrivalsFaithful(file, a, arrivals);
  }

  /** Slices are all that is safe to send: a request for the current length whose body is not a
      slice can arrive and leave bytes that no longer begin the file. */
  lemma ForeignBodyCorrupts(file: Bytes, r: Resource, p: Patch)
    requires r.stored <= file && p in r.sent && p.offset == |r.stored|
    ensures IsSlice(file, p) <==> forall kept | 0 <= kept <= |p.body| :: Arrive(r, Arrival(p, kept)).stored <= file
  {
    if IsSlice(file, p) {
      forall kept | 0 <= kept <= |p.body| ensures Arrive(r, Arrival(p, kept)).stored <= file {
        ArriveFaithful(file, r.(sent := {p}), Arrival(p, kept));
      }
    }
    var whole := Arrive(r, Arrival(p, |p.body|)).stored;
    assert p.body[..|p.body|] == p.body;
    assert whole[p.offset..] == p.body;
    assert whole <= file ==> whole == file[..|whole|];
  }
}
