/** The face service's descriptor store and its nearest-match search. The
    detector itself is a random draw and the network behind it is outside
    the model. Distances are kept squared: the service compares
    `sqrt(sum) < 0.6`, which for a non-negative sum is `sum < 0.36`. */
module FaceRecognition {
  import opened Optional
  import opened Seqs

  datatype FaceDescriptor = FaceDescriptor(id: string, name: string, descriptor: seq<real>)

  datatype Box = Box(x: int, y: int, width: int, height: int)

  /** One detected face: where it is, its descriptor, and the stored face
      it matches, if any. */
  datatype Detection = Detection(box: Box, descriptor: seq<real>, matched: Option<FaceDescriptor>)

  /** The squared distance threshold: a distance under 0.6. */
  const Threshold: real := 0.36

  /** The sum of squared differences over the first `n` components. */
  function SumSq(a: seq<real>, b: seq<real>, n: nat): (r: real)
    requires n <= |a| && n <= |b|
    ensures r >= 0.0
  {
    if n == 0 then 0.0
    else SumSq(a, b, n - 1) + (a[n - 1] - b[n - 1]) * (a[n - 1] - b[n - 1])
  }

  /** calculateDistance(desc1, desc2), squared: the sum runs over desc1's
      indices, so a shorter desc2 reads undefined components and the
      result is NaN, which is None here. */
  function SquaredDistance(desc1: seq<real>, desc2: seq<real>): (r: Option<real>)
    ensures r.None? <==> |desc2| < |desc1|
    ensures r.Some? ==> r.value >= 0.0
  {
    if |desc2| < |desc1| then None else Some(SumSq(desc1, desc2, |desc1|))
  }

  lemma {:induction false} SumSqSymmetric(a: seq<real>, b: seq<real>, n: nat)
    requires n <= |a| && n <= |b|
    ensures SumSq(a, b, n) == SumSq(b, a, n)
  {
    if n > 0 {
      SumSqSymmetric(a, b, n - 1);
      assert (a[n - 1] - b[n - 1]) * (a[n - 1] - b[n - 1]) == (b[n - 1] - a[n - 1]) * (b[n - 1] - a[n - 1]);
    }
  }

  lemma {:induction false} SumSqSelf(a: seq<real>, n: nat)
    requires n <= |a|
    ensures SumSq(a, a, n) == 0.0
  {
    if n > 0 {
      SumSqSelf(a, n - 1);
    }
  }

  /** For descriptors of equal length the distance is symmetric, and every
      descriptor is at distance 0 from itself. */
  lemma DistanceProperties(a: seq<real>, b: seq<real>)
    ensures |a| == |b| ==> SquaredDistance(a, b) == SquaredDistance(b, a)
    ensures SquaredDistance(a, a) == Some(0.0)
  {
    if |a| == |b| {
      SumSqSymmetric(a, b, |a|);
    }
    SumSqSelf(a, |a|);
  }

  /** The stored face is close enough to match the query. */
  predicate Within(query: seq<real>, f: FaceDescriptor)
  {
    var d := SquaredDistance(query, f.descriptor);
    d.Some? && d.value < Threshold
  }

  /** Entry `k` is the match findBestMatch keeps: within the threshold, no
      farther than any other entry within it, and strictly nearer than
      every earlier one (the comparison is strict, so ties keep the
      earliest). */
  predicate BestAt(query: seq<real>, faces: seq<FaceDescriptor>, k: int)
  {
    0 <= k < |faces| && Within(query, faces[k]) &&
    (forall j :: 0 <= j < |faces| && Within(query, faces[j]) ==>
      SquaredDistance(query, faces[k].descriptor).value <= SquaredDistance(query, faces[j].descriptor).value) &&
    (forall j :: 0 <= j < k && Within(query, faces[j]) ==>
      SquaredDistance(query, faces[k].descriptor).value < SquaredDistance(query, faces[j].descriptor).value)
  }

  /** The accumulating loop of calculateDistance. */
  method CalculateDistance(desc1: seq<real>, desc2: seq<real>) returns (r: Option<real>)
    ensures r == SquaredDistance(desc1, desc2)
  {
    if |desc2| < |desc1| {
      return None;
    }
    var sum := 0.0;
    for i := 0 to |desc1|
      invariant sum == SumSq(desc1, desc2, i)
    {
      sum := sum + (desc1[i] - desc2[i]) * (desc1[i] - desc2[i]);
    }
    return Some(sum);
  }

  class Recognizer {
    var isInitialized: bool
    var faceDescriptors: seq<FaceDescriptor>

    constructor ()
      ensures !isInitialized && faceDescriptors == []
    {
      isInitialized := false;
      faceDescriptors := [];
    }

    /** initialize: once set, the flag stays; `loaded` says whether the
        model could be built. */
    method Initialize(loaded: bool)
      modifies this`isInitialized
      ensures isInitialized == (old(isInitialized) || loaded)
    {
      if isInitialized {
        return;
      }
      if loaded {
        isInitialized := true;
      }
    }

    /** findBestMatch: the nearest stored face under the threshold, the
        earliest on ties; none when nothing is stored or nothing is near
        enough. */
    method FindBestMatch(query: seq<real>) returns (m: Option<FaceDescriptor>)
      ensures m.None? <==> forall i :: 0 <= i < |faceDescriptors| ==> !Within(query, faceDescriptors[i])
      ensures m.Some? ==> exists k :: BestAt(query, faceDescriptors, k) && faceDescriptors[k] == m.value
    {
      if |faceDescriptors| == 0 {
        return None;
      }
      var faces := faceDescriptors;
      m := None;
      var bestDistance := 0.0;
      var bestIndex := 0;
      for i := 0 to |faces|
        invariant m.None? ==> forall j :: 0 <= j < i ==> !Within(query, faces[j])
        invariant m.Some? ==> bestIndex < i && m.value == faces[bestIndex]
        invariant m.Some? ==> Within(query, faces[bestIndex])
        invariant m.Some? ==> SquaredDistance(query, faces[bestIndex].descriptor) == Some(bestDistance)
        invariant m.Some? ==> forall j :: 0 <= j < i && Within(query, faces[j]) ==>
          bestDistance <= SquaredDistance(query, faces[j].descriptor).value
        invariant m.Some? ==> forall j :: 0 <= j < bestIndex && Within(query, faces[j]) ==>
          bestDistance < SquaredDistance(query, faces[j].descriptor).value
      {
        var distance := CalculateDistance(query, faces[i].descriptor);
        if distance.Some? && (m.None? || distance.value < bestDistance) && distance.value < Threshold {
          bestDistance := distance.value;
          bestIndex := i;
          m := Some(faces[i]);
        }
      }
      if m.Some? {
        assert BestAt(query, faces, bestIndex);
      }
    }

    /** addFaceDescriptor: one entry more, at the end. */
    method AddFaceDescriptor(id: string, name: string, descriptor: seq<real>)
      modifies this`faceDescriptors
      ensures faceDescriptors == old(faceDescriptors) + [FaceDescriptor(id, name, descriptor)]
    {
      faceDescriptors := faceDescriptors + [FaceDescriptor(id, name, descriptor)];
    }

    /** removeFaceDescriptor: every entry with the id goes, the others stay
        in order. */
    method RemoveFaceDescriptor(id: string)
      modifies this`faceDescriptors
      ensures faceDescriptors == Filter(old(faceDescriptors), (f: FaceDescriptor) => f.id != id)
      ensures forall i :: 0 <= i < |faceDescriptors| ==> faceDescriptors[i].id != id
      ensures forall i :: 0 <= i < |old(faceDescriptors)| && old(faceDescriptors)[i].id != id ==>
        old(faceDescriptors)[i] in faceDescriptors
    {
      faceDescriptors := Filter(faceDescriptors, (f: FaceDescriptor) => f.id != id);
    }

    /** detectFaces with simulateFaceDetection: initialise first when
        needed; a frame that cannot be read gives no faces; otherwise a
        face is present when the draw exceeds 0.3, at a fixed box, with the
        best stored match for its descriptor. */
    method DetectFaces(loaded: bool, frameReadable: bool, faceDraw: real, descriptor: seq<real>)
      returns (faces: seq<Detection>)
      modifies this`isInitialized
      ensures isInitialized == (old(isInitialized) || loaded)
      ensures !frameReadable || faceDraw <= 0.3 ==> faces == []
      ensures frameReadable && faceDraw > 0.3 ==>
        |faces| == 1 && faces[0].box == Box(100, 100, 150, 150) && faces[0].descriptor == descriptor &&
        (faces[0].matched.None? <==> forall i :: 0 <= i < |faceDescriptors| ==> !Within(descriptor, faceDescriptors[i])) &&
        (faces[0].matched.Some? ==> exists k :: BestAt(descriptor, faceDescriptors, k) && faceDescriptors[k] == faces[0].matched.value)
    {
      if !isInitialized {
        Initialize(loaded);
      }
      if !frameReadable || faceDraw <= 0.3 {
        return [];
      }
      var matched := FindBestMatch(descriptor);
      faces := [Detection(Box(100, 100, 150, 150), descriptor, matched)];
    }
  }
}
