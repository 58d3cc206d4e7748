/** The messages exchanged through the relay and the subscriber's rule for
    applying them. Both `admin-action` and `update-action` carry a collection
    kind and the complete collection; a receiver replaces, never merges. */
module Protocol {

  const EmployeesKind: string := "employees"
  const AttendanceKind: string := "attendanceRecords"
  /** The role a kiosk announces with `request-data`. */
  const ClientRole: string := "client"

  predicate IsKind(kind: string)
  {
    kind == EmployeesKind || kind == AttendanceKind
  }

  /** `{ type: kind, payload: collection }`. The relay never looks inside the
      payload, so its elements are left abstract. */
  datatype Message<T> = Message(kind: string, payload: seq<T>)

  /** A mirror of collection `kind` after receiving `m`: replaced wholesale by
      a message of that kind, untouched by any other. */
  function Apply<T>(mirror: seq<T>, kind: string, m: Message<T>): (r: seq<T>)
    ensures m.kind == kind ==> r == m.payload
    ensures m.kind != kind ==> r == mirror
  {
    if m.kind == kind then m.payload else mirror
  }

  /** The mirror after receiving `ms` in order. */
  function Follow<T>(mirror: seq<T>, kind: string, ms: seq<Message<T>>): (r: seq<T>)
    ensures r == mirror || exists i :: 0 <= i < |ms| && ms[i].kind == kind && ms[i].payload == r
  {
    if |ms| == 0 then mirror else Apply(Follow(mirror, kind, ms[..|ms| - 1]), kind, ms[|ms| - 1])
  }

  lemma {:induction false} FollowConcat<T>(mirror: seq<T>, kind: string, ms: seq<Message<T>>, ns: seq<Message<T>>)
    ensures Follow(mirror, kind, ms + ns) == Follow(Follow(mirror, kind, ms), kind, ns)
    decreases |ns|
  {
    if |ns| == 0 {
      assert ms + ns == ms;
    } else {
      assert (ms + ns)[..|ms + ns| - 1] == ms + ns[..|ns| - 1];
      FollowConcat(mirror, kind, ms, ns[..|ns| - 1]);
    }
  }

  /** `ms[i]` is the last message of `kind` in `ms`. */
  predicate LastOfKind<T>(ms: seq<Message<T>>, kind: string, i: int)
  {
    0 <= i < |ms| && ms[i].kind == kind && forall j :: i < j < |ms| ==> ms[j].kind != kind
  }

  /** A mirror ends as the payload of the last message of its kind, or as it
      started when no such message arrived. */
  lemma {:induction false} FollowIsLastWrite<T>(mirror: seq<T>, kind: string, ms: seq<Message<T>>)
    ensures (forall j :: 0 <= j < |ms| ==> ms[j].kind != kind) ==> Follow(mirror, kind, ms) == mirror
    ensures forall i :: LastOfKind(ms, kind, i) ==> Follow(mirror, kind, ms) == ms[i].payload
    decreases |ms|
  {
    if |ms| > 0 {
      var init := ms[..|ms| - 1];
      var last := ms[|ms| - 1];
      assert forall j :: 0 <= j < |init| ==> init[j] == ms[j];
      FollowIsLastWrite(mirror, kind, init);
      assert Follow(mirror, kind, ms) == Apply(Follow(mirror, kind, init), kind, last);
      forall i | LastOfKind(ms, kind, i) ensures Follow(mirror, kind, ms) == ms[i].payload {
        if i < |ms| - 1 {
          assert LastOfKind(init, kind, i);
        }
      }
    }
  }

  /** Receiving the same message twice leaves the mirror as receiving it once. */
  lemma DuplicateIsHarmless<T>(mirror: seq<T>, kind: string, ms: seq<Message<T>>, m: Message<T>)
    ensures Follow(mirror, kind, ms + [m, m]) == Follow(mirror, kind, ms + [m])
  {
    FollowConcat(mirror, kind, ms, [m, m]);
    FollowConcat(mirror, kind, ms, [m]);
    var x := Follow(mirror, kind, ms);
    assert [m, m][..1] == [m];
    assert Follow(x, kind, [m, m]) == Apply(Apply(x, kind, m), kind, m);
  }
}
