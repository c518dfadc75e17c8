/**
 * `MyPanel._get_serial_ports`: the OS's port list, sorted as Python sorts
 * `(port, desc, hwid)` tuples, projected to the port names. The OS query is an
 * input; `sorted` is modelled by an insertion sort proved to order and permute.
 */
module SerialPorts {
  import opened PyText

  /** One `(port, desc, hwid)` entry of `list_ports.comports()`. */
  datatype PortInfo = PortInfo(device: string, description: string, hwid: string)

  /** Python's `a <= b` on the tuples: by port, then description, then hardware id. */
  predicate PortLe(a: PortInfo, b: PortInfo) {
    if a.device != b.device then StrLe(a.device, b.device)
    else if a.description != b.description then StrLe(a.description, b.description)
    else StrLe(a.hwid, b.hwid)
  }

  lemma PortLeTotal(a: PortInfo, b: PortInfo)
    ensures PortLe(a, b) || PortLe(b, a)
  {
    StrLeTotal(a.device, b.device);
    StrLeTotal(a.description, b.description);
    StrLeTotal(a.hwid, b.hwid);
  }

  lemma PortLeTransitive(a: PortInfo, b: PortInfo, c: PortInfo)
    requires PortLe(a, b) && PortLe(b, c)
    ensures PortLe(a, c)
  {
    if a.device != b.device && b.device != c.device {
      StrLeTransitive(a.device, b.device, c.device);
      if a.device == c.device {
        StrLeAntisymmetric(a.device, b.device);
      }
    } else if a.device == b.device && b.device == c.device {
      if a.description != b.description && b.description != c.description {
        StrLeTransitive(a.description, b.description, c.description);
        if a.description == c.description {
          StrLeAntisymmetric(a.description, b.description);
        }
      } else if a.description == b.description && b.description == c.description {
        StrLeTransitive(a.hwid, b.hwid, c.hwid);
      }
    }
  }

  /** A port entry's name never sorts after that of an entry that follows it. */
  lemma PortLeDevice(a: PortInfo, b: PortInfo)
    requires PortLe(a, b)
    ensures StrLe(a.device, b.device)
  {
    if a.device == b.device {
      StrLeReflexive(a.device);
    }
  }

  predicate SortedPorts(s: seq<PortInfo>) {
    forall i, j :: 0 <= i < j < |s| ==> PortLe(s[i], s[j])
  }

  function Insert(x: PortInfo, s: seq<PortInfo>): seq<PortInfo> {
    if s == [] then [x]
    else if PortLe(x, s[0]) then [x] + s
    else [s[0]] + Insert(x, s[1..])
  }

  /** `sorted(ports)`. */
  function Sort(ports: seq<PortInfo>): (r: seq<PortInfo>)
    ensures multiset(r) == multiset(ports)
  {
    if ports == [] then []
    else
      InsertPermutes(ports[0], Sort(ports[1..]));
      assert ports == [ports[0]] + ports[1..];
      Insert(ports[0], Sort(ports[1..]))
  }

  lemma {:induction false} InsertPermutes(x: PortInfo, s: seq<PortInfo>)
    ensures multiset(Insert(x, s)) == multiset(s) + multiset{x}
  {
    if s != [] && !PortLe(x, s[0]) {
      InsertPermutes(x, s[1..]);
      assert s == [s[0]] + s[1..];
    }
  }

  lemma {:induction false} InsertSorted(x: PortInfo, s: seq<PortInfo>)
    requires SortedPorts(s)
    ensures SortedPorts(Insert(x, s))
  {
    if s == [] {
    } else if PortLe(x, s[0]) {
      forall j | 1 <= j < |s| + 1
        ensures PortLe(x, ([x] + s)[j])
      {
        if j > 1 {
          PortLeTransitive(x, s[0], s[j - 1]);
        }
      }
    } else {
      PortLeTotal(x, s[0]);
      InsertSorted(x, s[1..]);
      InsertPermutes(x, s[1..]);
      var t := Insert(x, s[1..]);
      forall j | 0 <= j < |t|
        ensures PortLe(s[0], t[j])
      {
        assert t[j] in multiset(t);
        if t[j] != x {
          assert t[j] in multiset(s[1..]);
          var k :| 0 <= k < |s[1..]| && s[1..][k] == t[j];
          assert s[k + 1] == t[j];
        }
      }
    }
  }

  /** `sorted` returns the same entries, in ascending order. */
  lemma {:induction false} SortCorrect(ports: seq<PortInfo>)
    ensures SortedPorts(Sort(ports))
    ensures multiset(Sort(ports)) == multiset(ports)
  {
    if ports != [] {
      SortCorrect(ports[1..]);
      InsertSorted(ports[0], Sort(ports[1..]));
      InsertPermutes(ports[0], Sort(ports[1..]));
      assert ports == [ports[0]] + ports[1..];
    }
  }

  /** The port names of a list of entries, in the same order. */
  function Devices(s: seq<PortInfo>): (names: seq<string>)
    ensures |names| == |s| && forall k :: 0 <= k < |s| ==> names[k] == s[k].device
  {
    seq(|s|, k requires 0 <= k < |s| => s[k].device)
  }

  /**
   * `_get_serial_ports()`: one name per entry, in the order of the sorted
   * entries, so the names ascend; the entries are a permutation of the input.
   */
  method GetSerialPorts(comports: seq<PortInfo>) returns (ports: seq<string>)
    ensures ports == Devices(Sort(comports))
    ensures multiset(Sort(comports)) == multiset(comports)
    ensures forall i, j :: 0 <= i < j < |ports| ==> StrLe(ports[i], ports[j])
  {
    var sorted := Sort(comports);
    ports := [];
    var i := 0;
    while i < |sorted|
      invariant 0 <= i <= |sorted|
      invariant ports == Devices(sorted[..i])
    {
      ports := ports + [sorted[i].device];
      i := i + 1;
    }
    assert sorted[..i] == sorted;
    SortCorrect(comports);
    forall i, j | 0 <= i < j < |ports|
      ensures StrLe(ports[i], ports[j])
    {
      PortLeDevice(sorted[i], sorted[j]);
    }
  }
}
