/**
 * Request builders of the AdHawk eye-tracker API (`EyeTrackerAPI`): the byte
 * layout of the blob save/load and eye-offset payloads, and the `Calibrating`
 * and `RunningAutotune` flags that the request coroutines maintain.
 *
 * The UDP client that sends the requests, waits for acknowledgements and
 * invokes the callbacks is not part of this model: a request is recorded as
 * sent, and its completion is an explicit event carrying the ack status.
 */
module EyeTrackerRequests {
  import opened Common

  newtype byte = b: int | 0 <= b < 0x100

  newtype uint32 = n: int | 0 <= n < 0x1_0000_0000

  /** The packet types this file sends (their numeric codes live in `udpInfo`, which is not part of this model). */
  datatype PacketType =
    | SaveBlob | PropertySet
    | StartCalibration | StartValidation | AbortCalibration | StopCalibration | StopValidation
    | StartRanging

  /** How the UDP client reports the fate of a request to its callback. */
  datatype AckStatus = AckSuccess | AckError | Timeout | Received

  /** A request handed to the UDP client; `timeout` is None where the client's default applies. */
  datatype Request = Request(packetType: PacketType, data: seq<byte>, timeout: Option<real>)

  /** `BitConverter.GetBytes(UInt32)` on a little-endian host: least significant byte first. */
  function LittleEndian(n: uint32): (r: seq<byte>)
    ensures |r| == 4
  {
    var v := n as int;
    [(v % 0x100) as byte, (v / 0x100 % 0x100) as byte, (v / 0x1_0000 % 0x100) as byte, (v / 0x100_0000) as byte]
  }

  /** The number four little-endian bytes stand for. */
  function FromLittleEndian(b: seq<byte>): uint32
    requires |b| == 4
  {
    (b[0] as int + 0x100 * b[1] as int + 0x1_0000 * b[2] as int + 0x100_0000 * b[3] as int) as uint32
  }

  /** Encoding and decoding four little-endian bytes are inverse to each other, both ways. */
  lemma LittleEndianRoundTrip(n: uint32, b: seq<byte>)
    requires |b| == 4
    ensures FromLittleEndian(LittleEndian(n)) == n
    ensures LittleEndian(FromLittleEndian(b)) == b
  {
    var v := n as int;
    var q1 := v / 0x100;
    var q2 := q1 / 0x100;
    var q3 := q2 / 0x100;
    assert v / 0x1_0000 == q2 && v / 0x100_0000 == q3;
    assert v == v % 0x100 + 0x100 * (q1 % 0x100) + 0x1_0000 * (q2 % 0x100) + 0x100_0000 * q3;
    var w := FromLittleEndian(b) as int;
    assert w / 0x100 == b[1] as int + 0x100 * b[2] as int + 0x1_0000 * b[3] as int;
    assert w / 0x1_0000 == b[2] as int + 0x100 * b[3] as int;
    assert w / 0x100_0000 == b[3] as int;
  }

  /**
   * `BitConverter.ToUInt32(data, start)`: None where the call throws, that is
   * when fewer than four bytes are available from `start`.
   */
  function ToUInt32(data: seq<byte>, start: int): (r: Option<uint32>)
    ensures r.Some? <==> 0 <= start && start + 4 <= |data|
    ensures r.Some? ==> LittleEndian(r.value) == data[start..start + 4]
  {
    if 0 <= start && start + 4 <= |data| then
      LittleEndianRoundTrip(0, data[start..start + 4]);
      Some(FromLittleEndian(data[start..start + 4]))
    else None
  }

  /** The five-byte payload `LoadBlobCoroutine` fills: the blob type, then the blob ID. */
  function LoadBlobPayload(blobType: byte, blobId: uint32): (r: seq<byte>)
    ensures |r| == 5 && r[0] == blobType
    ensures r[1..] == LittleEndian(blobId)
  {
    [blobType] + LittleEndian(blobId)
  }

  /** Reading the ID back at offset 1, as `SaveBlobCoroutine` does, yields the ID `LoadBlob` wrote. */
  lemma LoadBlobIdRoundTrip(blobType: byte, blobId: uint32)
    ensures ToUInt32(LoadBlobPayload(blobType, blobId), 1) == Some(blobId)
  {
    var payload := LoadBlobPayload(blobType, blobId);
    assert payload[1..5] == LittleEndian(blobId);
    LittleEndianRoundTrip(blobId, payload[1..5]);
  }

  /** The request `SaveBlobCoroutine` sends: the single blob-type byte, one-second timeout. */
  function SaveBlobRequest(blobType: byte): (r: Request)
    ensures r.packetType == SaveBlob && r.data == [blobType] && r.timeout == Some(1.0)
  {
    Request(SaveBlob, [blobType], Some(1.0))
  }

  /** The request `LoadBlobCoroutine` sends; it carries the SAVE_BLOB packet type too. */
  function LoadBlobRequest(blobType: byte, blobId: uint32): (r: Request)
    ensures r.packetType == SaveBlob && r.timeout == Some(1.0)
    ensures |r.data| == 5 && r.data[0] == blobType && ToUInt32(r.data, 1) == Some(blobId)
  {
    LoadBlobIdRoundTrip(blobType, blobId);
    Request(SaveBlob, LoadBlobPayload(blobType, blobId), Some(1.0))
  }

  /** A save and a load request differ only in their payload's length, never in packet type. */
  lemma SaveAndLoadShareType(blobType: byte, blobId: uint32)
    ensures LoadBlobRequest(blobType, blobId).packetType == SaveBlobRequest(blobType).packetType
    ensures |SaveBlobRequest(blobType).data| == 1 && |LoadBlobRequest(blobType, blobId).data| == 5
    ensures LoadBlobRequest(blobType, blobId).data[..1] == SaveBlobRequest(blobType).data
  {
  }

  /** What the save acknowledgement handler does with the caller's callback. */
  datatype BlobCallback =
    | NotCalled
    | Called(blobId: uint32)   // blobCallback(BitConverter.ToUInt32(data, 1))
    | ConversionThrew          // ToUInt32 threw: the reply was shorter than five bytes

  /** The acknowledgement handler of `SaveBlobCoroutine`. */
  function SaveBlobAcknowledged(status: AckStatus, reply: seq<byte>, hasCallback: bool): (r: BlobCallback)
    ensures r == NotCalled <==> status != AckSuccess || !hasCallback
    ensures r.Called? ==> ToUInt32(reply, 1) == Some(r.blobId)
    ensures r == ConversionThrew <==> status == AckSuccess && hasCallback && |reply| < 5
  {
    if status == AckSuccess && hasCallback then
      match ToUInt32(reply, 1)
      case Some(id) => Called(id)
      case None => ConversionThrew
    else NotCalled
  }

  /**
   * A reply laid out like a load payload (a leading byte, then the ID) hands
   * the callback exactly that ID: the save side reads the ID where the load
   * side writes it.
   */
  lemma SavedIdReachesCallback(lead: byte, blobId: uint32)
    ensures SaveBlobAcknowledged(AckSuccess, LoadBlobPayload(lead, blobId), true) == Called(blobId)
  {
    LoadBlobIdRoundTrip(lead, blobId);
  }

  /** The base inter-pupillary distance of the Oculus Quest 2, in metres. */
  const BaseIpd: real := 0.063

  /** A pair of per-eye offsets, in millimetres, right eye first as on the wire. */
  datatype EyeOffsets = EyeOffsets(right: Vec3, left: Vec3)

  /**
   * The offsets `SetEyeOffsetFromBaseInMetersCoroutine` computes from a new
   * IPD in metres: half the IPD change, in millimetres, with opposite signs
   * on the two eyes' x axes and nothing on y and z. (`newOffsetR` lands in the
   * left vector and `newOffsetL` in the right one, as the source assigns them.)
   */
  function OffsetsFor(newIpd: real): (r: EyeOffsets)
    ensures r.right.x == -r.left.x
    ensures r.left.x == (newIpd - BaseIpd) * 500.0
    ensures r.right.y == 0.0 && r.right.z == 0.0 && r.left.y == 0.0 && r.left.z == 0.0
  {
    var newOffsetR := ((newIpd / 2.0) - (BaseIpd / 2.0)) * 1000.0;
    var newOffsetL := -newOffsetR;
    EyeOffsets(Vec3(newOffsetL, 0.0, 0.0), Vec3(newOffsetR, 0.0, 0.0))
  }

  /** The IPD can be read back from the offsets: no two IPDs give the same offsets. */
  lemma IpdFromOffsets(newIpd: real)
    ensures OffsetsFor(newIpd).left.x / 500.0 + BaseIpd == newIpd
  {
  }

  /** `Vector3.ToBytes` (not part of this model) yields twelve bytes per vector. */
  ghost predicate TwelveBytes(toBytes: Vec3 -> seq<byte>)
  {
    forall v :: |toBytes(v)| == 12
  }

  /** The PROPERTY_SET payload: the COMPONENT_OFFSETS property byte, the right vector, the left vector. */
  function EyeOffsetPayload(componentOffsets: byte, newIpd: real, toBytes: Vec3 -> seq<byte>): (r: seq<byte>)
    requires TwelveBytes(toBytes)
    ensures |r| == 25 && r[0] == componentOffsets
    ensures r[1..13] == toBytes(OffsetsFor(newIpd).right) && r[13..] == toBytes(OffsetsFor(newIpd).left)
  {
    var offsets := OffsetsFor(newIpd);
    [componentOffsets] + toBytes(offsets.right) + toBytes(offsets.left)
  }

  /** `SetEyeOffsetFromBaseInMetersCoroutine`'s request: no ack callback, the client's default timeout. */
  function EyeOffsetRequest(componentOffsets: byte, newIpd: real, toBytes: Vec3 -> seq<byte>): (r: Request)
    requires TwelveBytes(toBytes)
    ensures r.packetType == PropertySet && r.timeout == None
    ensures r.data == EyeOffsetPayload(componentOffsets, newIpd, toBytes)
  {
    Request(PropertySet, EyeOffsetPayload(componentOffsets, newIpd, toBytes), None)
  }

  /** What the reply handler of `RequestEyeOffsetsCoroutine` does with the caller's setter. */
  datatype OffsetsCallback =
    | SetterNotCalled                    // the request failed: only an error is logged
    | SetterCalled(offsets: EyeOffsets)  // setterCallback(right, left)
    | ReadFailed                         // the reply ended before both vectors were read

  /**
   * The reply handler of `RequestEyeOffsetsCoroutine`: on success, skip the
   * ack byte and the property byte, then read the right vector and the left
   * vector, twelve bytes each.
   */
  function EyeOffsetsReceived(status: AckStatus, reply: seq<byte>, fromBytes: seq<byte> -> Vec3): (r: OffsetsCallback)
    ensures r == SetterNotCalled <==> status != AckSuccess
    ensures r == ReadFailed <==> status == AckSuccess && |reply| < 26
    ensures r.SetterCalled? ==> r.offsets.right == fromBytes(reply[2..14]) && r.offsets.left == fromBytes(reply[14..26])
  {
    if status != AckSuccess then SetterNotCalled
    else if |reply| < 26 then ReadFailed
    else SetterCalled(EyeOffsets(fromBytes(reply[2..14]), fromBytes(reply[14..26])))
  }

  /**
   * The reply handler reads the vectors where the set packet writes them:
   * an ack byte followed by a set payload hands the setter, right before
   * left, the offsets in that payload. (The get request asks for
   * NORMALIZED_EYE_OFFSETS and the set packet carries COMPONENT_OFFSETS, so
   * this is a statement about the layout, not about what the tracker returns.)
   */
  lemma EyeOffsetsRoundTrip(ack: byte, componentOffsets: byte, newIpd: real,
                            toBytes: Vec3 -> seq<byte>, fromBytes: seq<byte> -> Vec3)
    requires TwelveBytes(toBytes)
    requires forall v :: fromBytes(toBytes(v)) == v
    ensures EyeOffsetsReceived(AckSuccess, [ack] + EyeOffsetPayload(componentOffsets, newIpd, toBytes), fromBytes)
            == SetterCalled(OffsetsFor(newIpd))
  {
    var payload := EyeOffsetPayload(componentOffsets, newIpd, toBytes);
    var reply := [ack] + payload;
    assert reply[2..14] == payload[1..13];
    assert reply[14..26] == payload[13..];
  }

  /** The seconds `RequestAutotuneCoroutine` waits for the tracker-ready signal. */
  const TrackerReadyTimeout: real := 8.0

  /** A request coroutine suspended at a `yield`, and what it does when it resumes. */
  datatype Continuation =
    | ClearCalibrating                                   // AbortCalibration, QueryEndValidation
    | FinishCalibration                                  // QueryEndCalibration
    | AutotuneRequested(readySignal: real)               // RequestAutotune, until START_RANGING completes
    | AutotuneWaiting(readySignal: real, waited: real)   // RequestAutotune, inside its WaitUntil
  {
    predicate IsAutotune()
    {
      AutotuneRequested? || AutotuneWaiting?
    }
  }

  /** `s` without its element at `k`. */
  function Remove(s: seq<Continuation>, k: nat): (r: seq<Continuation>)
    requires k < |s|
    ensures |r| == |s| - 1
    ensures forall i :: 0 <= i < k ==> r[i] == s[i]
    ensures forall i :: k <= i < |r| ==> r[i] == s[i + 1]
  {
    s[..k] + s[k + 1..]
  }

  /** The calibration and autotune state of `EyeTrackerAPI`. */
  class EyeTrackerApi {
    var calibrating: bool
    var calibrated: bool
    var runningAutotune: bool
    var sent: seq<Request>
    var pending: seq<Continuation>

    /** `RunningAutotune` is set exactly while one autotune coroutine is under way, and there is never a second. */
    ghost predicate Valid()
      reads this
    {
      && (runningAutotune <==> exists i :: 0 <= i < |pending| && pending[i].IsAutotune())
      && (forall i, j :: 0 <= i < |pending| && 0 <= j < |pending| && pending[i].IsAutotune() && pending[j].IsAutotune() ==> i == j)
    }

    constructor ()
      ensures Valid()
      ensures !calibrating && !calibrated && !runningAutotune && sent == [] && pending == []
    {
      calibrating := false;
      calibrated := false;
      runningAutotune := false;
      sent := [];
      pending := [];
    }

    /** Both begin-calibration coroutines: neither passes a timeout, and nothing follows the request. */
    method QueryBeginCalibration()
      requires Valid()
      modifies this
      ensures Valid()
      ensures calibrating
      ensures sent == old(sent) + [Request(StartCalibration, [], None)]
      ensures calibrated == old(calibrated) && runningAutotune == old(runningAutotune) && pending == old(pending)
    {
      calibrating := true;
      sent := sent + [Request(StartCalibration, [], None)];
    }

    /** Both begin-validation coroutines: a one-second timeout, and `Calibrating` is set here too. */
    method QueryBeginValidation()
      requires Valid()
      modifies this
      ensures Valid()
      ensures calibrating
      ensures sent == old(sent) + [Request(StartValidation, [], Some(1.0))]
      ensures calibrated == old(calibrated) && runningAutotune == old(runningAutotune) && pending == old(pending)
    {
      calibrating := true;
      sent := sent + [Request(StartValidation, [], Some(1.0))];
    }

    /** Sends the request; `Calibrating` is cleared only once the request completes. */
    method AbortCalibration()
      requires Valid()
      modifies this
      ensures Valid()
      ensures sent == old(sent) + [Request(PacketType.AbortCalibration, [], Some(1.0))]
      ensures pending == old(pending) + [ClearCalibrating]
      ensures calibrating == old(calibrating) && calibrated == old(calibrated) && runningAutotune == old(runningAutotune)
    {
      sent := sent + [Request(PacketType.AbortCalibration, [], Some(1.0))];
      AppendKeepsAutotune(pending, ClearCalibrating);
      pending := pending + [ClearCalibrating];
    }

    /** Sends the request; the ack handler and the clearing of `Calibrating` come on completion. */
    method QueryEndCalibration()
      requires Valid()
      modifies this
      ensures Valid()
      ensures sent == old(sent) + [Request(StopCalibration, [], Some(1.0))]
      ensures pending == old(pending) + [FinishCalibration]
      ensures calibrating == old(calibrating) && calibrated == old(calibrated) && runningAutotune == old(runningAutotune)
    {
      sent := sent + [Request(StopCalibration, [], Some(1.0))];
      AppendKeepsAutotune(pending, FinishCalibration);
      pending := pending + [FinishCalibration];
    }

    /** Sends the request; `Calibrating` is cleared only once the request completes. */
    method QueryEndValidation()
      requires Valid()
      modifies this
      ensures Valid()
      ensures sent == old(sent) + [Request(StopValidation, [], Some(1.0))]
      ensures pending == old(pending) + [ClearCalibrating]
      ensures calibrating == old(calibrating) && calibrated == old(calibrated) && runningAutotune == old(runningAutotune)
    {
      sent := sent + [Request(StopValidation, [], Some(1.0))];
      AppendKeepsAutotune(pending, ClearCalibrating);
      pending := pending + [ClearCalibrating];
    }

    /**
     * `RequestAutotuneCoroutine` up to its first `yield`: nothing at all if an
     * autotune is running; otherwise `RunningAutotune` is set before the
     * request goes out. `readySignal` is `lastTrackerReadySignalTime` now.
     */
    method RequestAutotune(timeout: real, readySignal: real)
      requires Valid()
      modifies this
      ensures Valid()
      ensures runningAutotune
      ensures old(runningAutotune) ==> sent == old(sent) && pending == old(pending)
      ensures !old(runningAutotune) ==>
                sent == old(sent) + [Request(StartRanging, [], Some(timeout))]
                && pending == old(pending) + [AutotuneRequested(readySignal)]
      ensures calibrating == old(calibrating) && calibrated == old(calibrated)
    {
      if runningAutotune {
        return;
      }
      runningAutotune := true;
      sent := sent + [Request(StartRanging, [], Some(timeout))];
      pending := pending + [AutotuneRequested(readySignal)];
      assert pending[|pending| - 1].IsAutotune();
    }

    /** The request of the suspended coroutine `pending[k]` completed with `status`. */
    method RequestCompleted(k: nat, status: AckStatus)
      requires Valid()
      requires k < |pending| && !pending[k].AutotuneWaiting?
      modifies this
      ensures Valid()
      ensures sent == old(sent)
      ensures old(pending[k]).ClearCalibrating? ==>
                !calibrating && calibrated == old(calibrated) && pending == Remove(old(pending), k)
      ensures old(pending[k]).FinishCalibration? ==>
                !calibrating && calibrated == (old(calibrated) || status == AckSuccess) && pending == Remove(old(pending), k)
      ensures old(pending[k]).AutotuneRequested? ==>
                calibrating == old(calibrating) && calibrated == old(calibrated)
                && pending == old(pending)[k := AutotuneWaiting(old(pending[k]).readySignal, 0.0)]
      ensures runningAutotune == old(runningAutotune)
    {
      match pending[k]
      case ClearCalibrating =>
        calibrating := false;
        AutotuneSurvivesRemoval(pending, k);
        pending := Remove(pending, k);
      case FinishCalibration =>
        if status == AckSuccess {
          calibrated := true;
        }
        calibrating := false;
        AutotuneSurvivesRemoval(pending, k);
        pending := Remove(pending, k);
      case AutotuneRequested(readySignal) =>
        pending := pending[k := AutotuneWaiting(readySignal, 0.0)];
        assert pending[k].IsAutotune();
    }

    /**
     * One frame's check of the autotune `WaitUntil`: it ends when more than
     * eight seconds have been waited or the tracker-ready signal time has
     * changed, and only then is `RunningAutotune` cleared.
     */
    method AutotuneFrame(k: nat, dt: real, readySignal: real) returns (done: bool)
      requires Valid()
      requires k < |pending| && pending[k].AutotuneWaiting?
      modifies this
      ensures Valid()
      ensures done == (old(pending[k]).waited + dt > TrackerReadyTimeout || old(pending[k]).readySignal != readySignal)
      ensures runningAutotune == !done
      ensures done ==> pending == Remove(old(pending), k)
      ensures !done ==> pending == old(pending)[k := old(pending[k]).(waited := old(pending[k]).waited + dt)]
      ensures sent == old(sent) && calibrating == old(calibrating) && calibrated == old(calibrated)
    {
      var waiting := pending[k];
      var waited := waiting.waited + dt;
      done := waited > TrackerReadyTimeout || waiting.readySignal != readySignal;
      if done {
        AutotuneGoneAfterRemoval(pending, k);
        pending := Remove(pending, k);
        runningAutotune := false;
      } else {
        pending := pending[k := waiting.(waited := waited)];
        assert pending[k].IsAutotune();
      }
    }
  }

  /** Appending a continuation that is not an autotune adds no autotune. */
  lemma AppendKeepsAutotune(s: seq<Continuation>, c: Continuation)
    requires !c.IsAutotune()
    ensures (exists i :: 0 <= i < |s + [c]| && (s + [c])[i].IsAutotune()) ==> exists i :: 0 <= i < |s| && s[i].IsAutotune()
    ensures (exists i :: 0 <= i < |s| && s[i].IsAutotune()) ==> exists i :: 0 <= i < |s + [c]| && (s + [c])[i].IsAutotune()
  {
    if i :| 0 <= i < |s + [c]| && (s + [c])[i].IsAutotune() {
      assert i < |s| && s[i].IsAutotune();
    }
    if i :| 0 <= i < |s| && s[i].IsAutotune() {
      assert (s + [c])[i].IsAutotune();
    }
  }

  /** Removing a continuation that is not an autotune keeps the autotune ones. */
  lemma AutotuneSurvivesRemoval(s: seq<Continuation>, k: nat)
    requires k < |s| && !s[k].IsAutotune()
    ensures (exists i :: 0 <= i < |s| && s[i].IsAutotune()) ==>
              exists i :: 0 <= i < |Remove(s, k)| && Remove(s, k)[i].IsAutotune()
  {
    if i :| 0 <= i < |s| && s[i].IsAutotune() {
      var r := Remove(s, k);
      if i < k {
        assert r[i].IsAutotune();
      } else {
        assert r[i - 1].IsAutotune();
      }
    }
  }

  /** Removing the only autotune continuation leaves none. */
  lemma AutotuneGoneAfterRemoval(s: seq<Continuation>, k: nat)
    requires k < |s| && s[k].IsAutotune()
    requires forall i, j :: 0 <= i < |s| && 0 <= j < |s| && s[i].IsAutotune() && s[j].IsAutotune() ==> i == j
    ensures forall i :: 0 <= i < |Remove(s, k)| ==> !Remove(s, k)[i].IsAutotune()
  {
    var r := Remove(s, k);
    forall i | 0 <= i < |r|
      ensures !r[i].IsAutotune()
    {
      if i >= k {
        assert r[i] == s[i + 1];
      }
    }
  }
}
