/**
 The canonical encoding of a membership command, a decoder for it, and the proof that
 different configurations never share an encoding.
 */
module MembershipCodec {
  import opened Types
  import opened Membership

  type Byte = b: nat | b < 256

  /** The ASCII bytes of the command's name and version. */
  const MAGIC: seq<Byte> := [113, 117, 101, 112, 97, 120, 97, 45, 109, 101, 109, 98, 101, 114, 115, 104, 105, 112, 45,
                             99, 111, 109, 109, 97, 110, 100, 45, 118, 49]

  // ----- Fixed-width integers -----

  /** The last n base-256 digits of a number, most significant first. */
  function BigEndian(value: nat, n: nat): (bytes: seq<Byte>)
    ensures |bytes| == n
  {
    if n == 0 then [] else BigEndian(value / 256, n - 1) + [value % 256]
  }

  function FromBigEndian(bytes: seq<Byte>): nat {
    if bytes == [] then 0 else FromBigEndian(bytes[..|bytes| - 1]) * 256 + bytes[|bytes| - 1]
  }

  function Power256(n: nat): nat {
    if n == 0 then 1 else Power256(n - 1) * 256
  }

  lemma QuotientFits(value: nat, bound: nat)
    requires value < bound * 256
    ensures value / 256 < bound && value == value / 256 * 256 + value % 256
  {
  }

  lemma {:induction false} BigEndianRoundTrip(value: nat, n: nat)
    requires value < Power256(n)
    ensures FromBigEndian(BigEndian(value, n)) == value
  {
    if n > 0 {
      var bytes := BigEndian(value, n);
      assert bytes[..n - 1] == BigEndian(value / 256, n - 1) && bytes[n - 1] == value % 256;
      QuotientFits(value, Power256(n - 1));
      BigEndianRoundTrip(value / 256, n - 1);
    }
  }

  predicate Fits(value: nat) {
    value <= U64_MAX
  }

  function Word(value: nat): seq<Byte> {
    BigEndian(value, 8)
  }

  lemma WordRoundTrip(value: nat)
    requires Fits(value)
    ensures FromBigEndian(Word(value)) == value
  {
    assert Power256(4) == 0x1_0000_0000;
    assert Power256(8) == Power256(4) * 0x1_0000_0000;
    BigEndianRoundTrip(value, 8);
  }

  // ----- Encoding -----

  function Words(values: seq<nat>): seq<Byte> {
    if values == [] then [] else Word(values[0]) + Words(values[1..])
  }

  function MembersBytes(members: seq<ReplicaId>): seq<Byte> {
    Word(|members|) + Words(members)
  }

  function JointBytes(joint: Option<Joint>): seq<Byte> {
    match joint
    case None => [0]
    case Some(j) => [1] + Word(j.oldMaxFaults) + MembersBytes(j.oldMembers) + MembersBytes(j.newMembers)
  }

  function ClusterBytes(c: Cluster): seq<Byte> {
    Word(c.epoch) + Word(c.maxFaults) + MembersBytes(c.members) + JointBytes(c.joint)
  }

  function CanonicalBytes(c: Cluster): seq<Byte> {
    MAGIC + ClusterBytes(c)
  }

  predicate MembersFit(members: seq<ReplicaId>) {
    Fits(|members|) && forall i :: 0 <= i < |members| ==> Fits(members[i])
  }

  /** Every field is a 64-bit number. */
  predicate ClusterFits(c: Cluster) {
    && Fits(c.epoch) && Fits(c.maxFaults) && MembersFit(c.members)
    && (c.joint.Some? ==>
          Fits(c.joint.value.oldMaxFaults) && MembersFit(c.joint.value.oldMembers)
              && MembersFit(c.joint.value.newMembers))
  }

  /** The only fields that are not 64-bit numbers by their type are counts. */
  predicate CountsFit(c: Cluster) {
    && Fits(c.maxFaults) && Fits(|c.members|)
    && (c.joint.Some? ==>
          Fits(c.joint.value.oldMaxFaults) && Fits(|c.joint.value.oldMembers|) && Fits(|c.joint.value.newMembers|))
  }

  // ----- Decoding -----

  /** A decoded value and the bytes after it. */
  datatype Parsed<T> = Parsed(value: T, rest: seq<Byte>) | Malformed

  function ParseWord(bytes: seq<Byte>): Parsed<nat> {
    if |bytes| < 8 then Malformed else Parsed(FromBigEndian(bytes[..8]), bytes[8..])
  }

  function ParseWords(count: nat, bytes: seq<Byte>): Parsed<seq<nat>> {
    if count == 0 then Parsed([], bytes)
    else
      match ParseWord(bytes)
      case Malformed => Malformed
      case Parsed(first, rest) =>
        match ParseWords(count - 1, rest)
        case Malformed => Malformed
        case Parsed(values, end) => Parsed([first] + values, end)
  }

  function ParseMembers(bytes: seq<Byte>): Parsed<seq<ReplicaId>> {
    match ParseWord(bytes)
    case Malformed => Malformed
    case Parsed(count, rest) => ParseWords(count, rest)
  }

  function ParseJoint(bytes: seq<Byte>): Parsed<Option<Joint>> {
    if bytes == [] then Malformed
    else if bytes[0] == 0 then Parsed(None, bytes[1..])
    else if bytes[0] != 1 then Malformed
    else
      match ParseWord(bytes[1..])
      case Malformed => Malformed
      case Parsed(oldMaxFaults, rest) =>
        match ParseMembers(rest)
        case Malformed => Malformed
        case Parsed(oldMembers, rest') =>
          match ParseMembers(rest')
          case Malformed => Malformed
          case Parsed(newMembers, end) => Parsed(Some(Joint(oldMembers, oldMaxFaults, newMembers)), end)
  }

  function ParseCluster(bytes: seq<Byte>): Parsed<Cluster> {
    match ParseWord(bytes)
    case Malformed => Malformed
    case Parsed(epoch, afterEpoch) =>
      match ParseWord(afterEpoch)
      case Malformed => Malformed
      case Parsed(maxFaults, afterFaults) =>
        match ParseMembers(afterFaults)
        case Malformed => Malformed
        case Parsed(members, afterMembers) =>
          match ParseJoint(afterMembers)
          case Malformed => Malformed
          case Parsed(joint, end) => Parsed(Cluster(members, maxFaults, epoch, joint), end)
  }

  function Decode(bytes: seq<Byte>): Option<Cluster> {
    if |bytes| < |MAGIC| || bytes[..|MAGIC|] != MAGIC then None
    else
      match ParseCluster(bytes[|MAGIC|..])
      case Malformed => None
      case Parsed(c, rest) => if rest == [] then Some(c) else None
  }

  // ----- Round trips -----

  lemma WordParses(value: nat, rest: seq<Byte>)
    requires Fits(value)
    ensures ParseWord(Word(value) + rest) == Parsed(value, rest)
  {
    WordRoundTrip(value);
    assert (Word(value) + rest)[..8] == Word(value);
    assert (Word(value) + rest)[8..] == rest;
  }

  lemma {:induction false} WordsParse(values: seq<nat>, rest: seq<Byte>)
    requires forall i :: 0 <= i < |values| ==> Fits(values[i])
    ensures ParseWords(|values|, Words(values) + rest) == Parsed(values, rest)
  {
    if values == [] {
      assert Words(values) + rest == rest;
    } else {
      assert Words(values) + rest == Word(values[0]) + (Words(values[1..]) + rest);
      WordParses(values[0], Words(values[1..]) + rest);
      WordsParse(values[1..], rest);
      assert [values[0]] + values[1..] == values;
    }
  }

  lemma MembersParse(members: seq<ReplicaId>, rest: seq<Byte>)
    requires MembersFit(members)
    ensures ParseMembers(MembersBytes(members) + rest) == Parsed(members, rest)
  {
    assert MembersBytes(members) + rest == Word(|members|) + (Words(members) + rest);
    WordParses(|members|, Words(members) + rest);
    WordsParse(members, rest);
  }

  lemma JointParses(joint: Option<Joint>)
    requires joint.Some? ==>
               Fits(joint.value.oldMaxFaults) && MembersFit(joint.value.oldMembers)
               && MembersFit(joint.value.newMembers)
    ensures ParseJoint(JointBytes(joint)) == Parsed(joint, [])
  {
    if joint.Some? {
      var j := joint.value;
      var tail := MembersBytes(j.oldMembers) + MembersBytes(j.newMembers);
      assert JointBytes(joint)[1..] == Word(j.oldMaxFaults) + tail;
      WordParses(j.oldMaxFaults, tail);
      MembersParse(j.oldMembers, MembersBytes(j.newMembers));
      assert MembersBytes(j.newMembers) + [] == MembersBytes(j.newMembers);
      MembersParse(j.newMembers, []);
    }
  }

  lemma ClusterParses(c: Cluster)
    requires ClusterFits(c)
    ensures ParseCluster(ClusterBytes(c)) == Parsed(c, [])
  {
    var joint := JointBytes(c.joint);
    assert ClusterBytes(c) == Word(c.epoch) + (Word(c.maxFaults) + (MembersBytes(c.members) + joint));
    WordParses(c.epoch, Word(c.maxFaults) + (MembersBytes(c.members) + joint));
    WordParses(c.maxFaults, MembersBytes(c.members) + joint);
    MembersParse(c.members, joint);
    JointParses(c.joint);
  }

  /** Decoding an encoding gives back the configuration, field by field. */
  lemma DecodeEncode(c: Cluster)
    requires ClusterFits(c)
    ensures Decode(CanonicalBytes(c)) == Some(c)
  {
    assert CanonicalBytes(c)[..|MAGIC|] == MAGIC && CanonicalBytes(c)[|MAGIC|..] == ClusterBytes(c);
    ClusterParses(c);
  }

  /** Different configurations have different encodings. */
  lemma EncodingIsInjective(a: Cluster, b: Cluster)
    requires ClusterFits(a) && ClusterFits(b)
    ensures CanonicalBytes(a) == CanonicalBytes(b) <==> a == b
  {
    DecodeEncode(a);
    DecodeEncode(b);
  }

  // ----- The encoder -----

  lemma {:induction false} WordsAppend(values: seq<nat>, value: nat)
    ensures Words(values + [value]) == Words(values) + Word(value)
  {
    if values == [] {
      assert [value][1..] == [];
      assert Words([value]) == Word(value) + [];
    } else {
      assert (values + [value])[1..] == values[1..] + [value];
      WordsAppend(values[1..], value);
    }
  }

  /** The byte buffer that the encoding functions append to. */
  class ByteBuffer {
    var bytes: seq<Byte>

    constructor (initial: seq<Byte>)
      ensures bytes == initial
    {
      bytes := initial;
    }

    method EncodeUsize(value: nat) returns (r: Result<()>)
      modifies this
      ensures r.Ok? <==> Fits(value)
      ensures bytes == old(bytes) + if r.Ok? then Word(value) else []
    {
      if value > U64_MAX {
        return Err(InvalidReconfiguration);
      }
      bytes := bytes + Word(value);
      r := Ok(());
    }

    method EncodeMembers(members: seq<ReplicaId>) returns (r: Result<()>)
      modifies this
      ensures r.Ok? <==> Fits(|members|)
      ensures r.Ok? ==> bytes == old(bytes) + MembersBytes(members)
    {
      r := EncodeUsize(|members|);
      if r.Err? {
        return;
      }
      ghost var start := bytes;
      for i := 0 to |members|
        invariant bytes == start + Words(members[..i])
      {
        assert members[..i + 1] == members[..i] + [members[i]];
        WordsAppend(members[..i], members[i]);
        bytes := bytes + Word(members[i]);
      }
      assert members[..|members|] == members;
    }

    method EncodeCluster(c: Cluster) returns (r: Result<()>)
      modifies this
      ensures r.Ok? <==> CountsFit(c)
      ensures r.Ok? ==> bytes == old(bytes) + ClusterBytes(c)
    {
      bytes := bytes + Word(c.epoch);
      r := EncodeUsize(c.maxFaults);
      if r.Err? { return; }
      r := EncodeMembers(c.members);
      if r.Err? { return; }
      match c.joint {
        case None => bytes := bytes + [0];
        case Some(j) =>
          bytes := bytes + [1];
          r := EncodeUsize(j.oldMaxFaults);
          if r.Err? { return; }
          r := EncodeMembers(j.oldMembers);
          if r.Err? { return; }
          r := EncodeMembers(j.newMembers);
      }
    }
  }

  /** The canonical bytes of a membership command for a configuration of 64-bit fields. */
  method Encode(c: Cluster) returns (r: Result<seq<Byte>>)
    ensures r.Ok? <==> CountsFit(c)
    ensures r.Ok? ==> r.value == CanonicalBytes(c)
    ensures ClusterFits(c) ==> r.Ok? && Decode(r.value) == Some(c)
  {
    var buffer := new ByteBuffer(MAGIC);
    var done := buffer.EncodeCluster(c);
    r := if done.Ok? then Ok(buffer.bytes) else Err(done.error);
    if ClusterFits(c) {
      DecodeEncode(c);
    }
  }
}
