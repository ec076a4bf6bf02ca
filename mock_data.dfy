/**
 * The built-in demonstration data: two banks whose zones hold branches
 * either directly or through NBGs and ROs, four devices per branch, and the
 * helpers that flatten it into a device list and a dashboard summary.
 */
module MockData {
  import opened Wrappers
  import opened Seqs

  datatype Status = Online | Offline

  datatype DeviceKind = Atm | Pos | SecurityCamera | Server | NetworkSwitch

  datatype Device = Device(
    id: string,
    name: string,
    kind: DeviceKind,
    status: Status,
    lastActive: string,
    location: string,
    ipAddress: string,
    version: string)

  /** The values drawn at random for one device: its status, last-active time and address. */
  datatype Sample = Sample(status: Status, lastActive: string, ipAddress: string)

  /** The random draws, as a function of the device's id. */
  type Sampler = string -> Sample

  datatype Branch = Branch(id: string, name: string, code: string, address: string, manager: string, devices: seq<Device>)

  datatype Ro = Ro(id: string, name: string, code: string, manager: string, branches: seq<Branch>)

  datatype Nbg = Nbg(id: string, name: string, code: string, manager: string, ros: seq<Ro>)

  /** A zone lists its branches directly, or through NBGs; either list may be absent. */
  datatype Zone = Zone(
    id: string,
    name: string,
    code: string,
    manager: string,
    branches: Option<seq<Branch>>,
    nbgs: Option<seq<Nbg>>)

  datatype BankKind = Sbi | IndianBank

  datatype Bank = Bank(id: string, name: string, kind: BankKind, zones: seq<Zone>)

  datatype UserStatus = Active | Inactive

  datatype User = User(id: string, name: string, email: string, role: string, status: UserStatus, permissions: seq<string>)

  // ---------------------------------------------------------------- devices of a branch

  /** The id of a branch's device: the branch code, the device's tag and `-001`. */
  function MockDeviceId(code: string, tag: string): string {
    code + "-" + tag + "-001"
  }

  const Tags: seq<string> := ["atm", "pos", "cam", "srv"]

  function MockDevice(code: string, tag: string, name: string, kind: DeviceKind, location: string,
                      version: string, sample: Sampler): Device
  {
    var id := MockDeviceId(code, tag);
    var s := sample(id);
    Device(id, name, kind, s.status, s.lastActive, location, s.ipAddress, version)
  }

  /** `createMockDevices`. */
  function CreateMockDevices(code: string, sample: Sampler): (r: seq<Device>)
    ensures |r| == 4
    ensures forall k :: 0 <= k < 4 ==> r[k].id == MockDeviceId(code, Tags[k])
  {
    [MockDevice(code, "atm", "ATM Terminal 1", Atm, "Main Entrance", "2.1.4", sample),
     MockDevice(code, "pos", "POS Terminal 1", Pos, "Counter 1", "1.8.2", sample),
     MockDevice(code, "cam", "Security Camera 1", SecurityCamera, "Main Hall", "3.2.1", sample),
     MockDevice(code, "srv", "Branch Server", Server, "Server Room", "4.5.0", sample)]
  }

  /**
   * Device ids never collide across branches: the id determines both the
   * branch code and the device's tag.
   */
  lemma MockDeviceIdInjective(c1: string, t1: string, c2: string, t2: string)
    requires t1 in Tags && t2 in Tags
    requires MockDeviceId(c1, t1) == MockDeviceId(c2, t2)
    ensures c1 == c2 && t1 == t2
  {
    var id := MockDeviceId(c1, t1);
    assert |t1| == 3 && |t2| == 3;
    assert |c1| == |c2|;
    assert c1 == id[..|c1|] && c2 == MockDeviceId(c2, t2)[..|c2|];
    assert t1 == id[|c1| + 1..|c1| + 4] && t2 == MockDeviceId(c2, t2)[|c2| + 1..|c2| + 4];
  }

  /** Within one branch the four ids are pairwise distinct. */
  lemma MockDeviceIdsDistinct(code: string, sample: Sampler)
    ensures forall j, k :: 0 <= j < k < 4 ==> CreateMockDevices(code, sample)[j].id != CreateMockDevices(code, sample)[k].id
  {
    var r := CreateMockDevices(code, sample);
    forall j, k | 0 <= j < k < 4 ensures r[j].id != r[k].id {
      if r[j].id == r[k].id {
        MockDeviceIdInjective(code, Tags[j], code, Tags[k]);
        assert false;
      }
    }
  }

  // ---------------------------------------------------------------- the fixed data

  function SbiZones(sample: Sampler): seq<Zone> {
    [Zone("sbi-z1", "Mumbai Zone", "MZ", "Rajesh Kumar", Some([
        Branch("sbi-b1", "Andheri West Branch", "SBIN0001234", "123 Andheri West, Mumbai - 400058", "Priya Sharma",
               CreateMockDevices("SBIN0001234", sample)),
        Branch("sbi-b2", "Bandra Branch", "SBIN0001235", "456 Bandra, Mumbai - 400050", "Amit Patel",
               CreateMockDevices("SBIN0001235", sample)),
        Branch("sbi-b3", "Powai Branch", "SBIN0001236", "789 Powai, Mumbai - 400076", "Sunita Gupta",
               CreateMockDevices("SBIN0001236", sample))]), None),
     Zone("sbi-z2", "Delhi Zone", "DZ", "Vikram Singh", Some([
        Branch("sbi-b4", "Connaught Place Branch", "SBIN0002001", "CP Block A, New Delhi - 110001", "Neha Agarwal",
               CreateMockDevices("SBIN0002001", sample)),
        Branch("sbi-b5", "Karol Bagh Branch", "SBIN0002002", "Karol Bagh, New Delhi - 110005", "Rohit Jain",
               CreateMockDevices("SBIN0002002", sample))]), None)]
  }

  function IndianBankZones(sample: Sampler): seq<Zone> {
    [Zone("ib-z1", "South Zone", "SZ", "Lakshmi Nair", None, Some([
        Nbg("ib-nbg1", "Chennai NBG", "CHE-NBG", "Ravi Chandran", [
          Ro("ib-ro1", "Chennai Central RO", "CHE-C-RO", "Meera Krishnan", [
            Branch("ib-b1", "T Nagar Branch", "IDIB0001001", "T Nagar, Chennai - 600017", "Karthik Subramanian",
                   CreateMockDevices("IDIB0001001", sample)),
            Branch("ib-b2", "Anna Nagar Branch", "IDIB0001002", "Anna Nagar, Chennai - 600040", "Divya Raj",
                   CreateMockDevices("IDIB0001002", sample))])])])),
     Zone("ib-z2", "West Zone", "WZ", "Arjun Desai", None, Some([
        Nbg("ib-nbg2", "Pune NBG", "PUN-NBG", "Sangeeta Kulkarni", [
          Ro("ib-ro2", "Pune City RO", "PUN-C-RO", "Nitin Bhosale", [
            Branch("ib-b3", "Shivaji Nagar Branch", "IDIB0002001", "Shivaji Nagar, Pune - 411005", "Pooja Marathe",
                   CreateMockDevices("IDIB0002001", sample))])])]))]
  }

  /** `banks`. */
  function Banks(sample: Sampler): seq<Bank> {
    [Bank("sbi", "State Bank of India", Sbi, SbiZones(sample)),
     Bank("indianbank", "Indian Bank", IndianBank, IndianBankZones(sample))]
  }

  /** `users`. */
  const Users: seq<User> := [
    User("u1", "Admin User", "admin@bankingsec.com", "System Administrator", Active, ["all"]),
    User("u2", "Security Manager", "security@bankingsec.com", "Security Manager", Active, ["monitor", "alerts", "reports"]),
    User("u3", "Branch Manager", "branch@bankingsec.com", "Branch Manager", Active, ["view", "branch-manage"])]

  // ---------------------------------------------------------------- what the walks visit

  function RoBranches(r: Ro): seq<Branch> {
    r.branches
  }

  function NbgBranches(n: Nbg): seq<Branch> {
    ConcatMap(n.ros, RoBranches)
  }

  /**
   * The branches a walk takes from a zone: its own list when present (an
   * empty list counts as present), otherwise those under its NBGs.
   */
  function ZoneBranches(z: Zone): seq<Branch> {
    if z.branches.Some? then z.branches.value
    else if z.nbgs.Some? then ConcatMap(z.nbgs.value, NbgBranches)
    else []
  }

  function BankBranches(b: Bank): seq<Branch> {
    ConcatMap(b.zones, ZoneBranches)
  }

  /** Every branch the walks visit, in bank, zone, NBG, RO and branch order. */
  function VisitedBranches(banks: seq<Bank>): seq<Branch> {
    ConcatMap(banks, BankBranches)
  }

  /** A zone's own branch list wins over its NBGs, even when that list is empty. */
  lemma BranchesTakePrecedence(z: Zone)
    requires z.branches.Some?
    ensures ZoneBranches(z) == z.branches.value
  {
  }

  /** The same walk, collecting devices level by level as the nested loops do. */
  function BranchDevices(b: Branch): seq<Device> {
    b.devices
  }

  function RoDevices(r: Ro): seq<Device> {
    ConcatMap(r.branches, BranchDevices)
  }

  function NbgDevices(n: Nbg): seq<Device> {
    ConcatMap(n.ros, RoDevices)
  }

  function ZoneDevices(z: Zone): seq<Device> {
    if z.branches.Some? then ConcatMap(z.branches.value, BranchDevices)
    else if z.nbgs.Some? then ConcatMap(z.nbgs.value, NbgDevices)
    else []
  }

  function BankDevices(b: Bank): seq<Device> {
    ConcatMap(b.zones, ZoneDevices)
  }

  function AllDevices(banks: seq<Bank>): seq<Device> {
    ConcatMap(banks, BankDevices)
  }

  lemma ZoneDevicesOfBranches(z: Zone)
    ensures ZoneDevices(z) == ConcatMap(ZoneBranches(z), BranchDevices)
  {
    if z.branches.None? && z.nbgs.Some? {
      forall n | n in z.nbgs.value ensures NbgDevices(n) == ConcatMap(NbgBranches(n), BranchDevices) {
        ConcatMapNested(n.ros, RoBranches, BranchDevices, RoDevices);
      }
      ConcatMapNested(z.nbgs.value, NbgBranches, BranchDevices, NbgDevices);
    }
  }

  /**
   * The device list is exactly the concatenation of the device lists of the
   * visited branches, so its length is the sum of their device counts.
   */
  lemma AllDevicesOfVisitedBranches(banks: seq<Bank>)
    ensures AllDevices(banks) == ConcatMap(VisitedBranches(banks), BranchDevices)
    ensures |AllDevices(banks)| == SumLengths(VisitedBranches(banks), BranchDevices)
  {
    forall b | b in banks ensures BankDevices(b) == ConcatMap(BankBranches(b), BranchDevices) {
      forall z | z in b.zones ensures ZoneDevices(z) == ConcatMap(ZoneBranches(z), BranchDevices) {
        ZoneDevicesOfBranches(z);
      }
      ConcatMapNested(b.zones, ZoneBranches, BranchDevices, ZoneDevices);
    }
    ConcatMapNested(banks, BankBranches, BranchDevices, BankDevices);
    ConcatMapLength(VisitedBranches(banks), BranchDevices);
  }

  // ---------------------------------------------------------------- getAllDevices

  /** `branches.forEach(branch => devices.push(...branch.devices))`. */
  method PushBranchDevices(devices: seq<Device>, branches: seq<Branch>) returns (out: seq<Device>)
    ensures out == devices + ConcatMap(branches, BranchDevices)
  {
    out := devices;
    var i := 0;
    while i < |branches|
      invariant 0 <= i <= |branches|
      invariant out == devices + ConcatMap(branches[..i], BranchDevices)
    {
      assert branches[..i + 1][..i] == branches[..i];
      out := out + branches[i].devices;
      i := i + 1;
    }
    assert branches[..i] == branches;
  }

  /** `nbgs.forEach(nbg => nbg.ros.forEach(ro => ...))`. */
  method PushNbgDevices(devices: seq<Device>, nbgs: seq<Nbg>) returns (out: seq<Device>)
    ensures out == devices + ConcatMap(nbgs, NbgDevices)
  {
    out := devices;
    var i := 0;
    while i < |nbgs|
      invariant 0 <= i <= |nbgs|
      invariant out == devices + ConcatMap(nbgs[..i], NbgDevices)
    {
      var ros := nbgs[i].ros;
      var before := out;
      var j := 0;
      while j < |ros|
        invariant 0 <= j <= |ros|
        invariant out == before + ConcatMap(ros[..j], RoDevices)
      {
        assert ros[..j + 1][..j] == ros[..j];
        out := PushBranchDevices(out, ros[j].branches);
        j := j + 1;
      }
      assert ros[..j] == ros;
      assert nbgs[..i + 1][..i] == nbgs[..i];
      i := i + 1;
    }
    assert nbgs[..i] == nbgs;
  }

  /** The callback for one zone: its branches if present, else its NBGs. */
  method PushZoneDevices(devices: seq<Device>, z: Zone) returns (out: seq<Device>)
    ensures out == devices + ZoneDevices(z)
  {
    if z.branches.Some? {
      out := PushBranchDevices(devices, z.branches.value);
    } else if z.nbgs.Some? {
      out := PushNbgDevices(devices, z.nbgs.value);
    } else {
      out := devices;
    }
  }

  /** `getAllDevices`. */
  method GetAllDevices(banks: seq<Bank>) returns (devices: seq<Device>)
    ensures devices == AllDevices(banks)
    ensures devices == ConcatMap(VisitedBranches(banks), BranchDevices)
  {
    devices := [];
    var i := 0;
    while i < |banks|
      invariant 0 <= i <= |banks|
      invariant devices == ConcatMap(banks[..i], BankDevices)
    {
      var zones := banks[i].zones;
      var before := devices;
      var j := 0;
      while j < |zones|
        invariant 0 <= j <= |zones|
        invariant devices == before + ConcatMap(zones[..j], ZoneDevices)
      {
        assert zones[..j + 1][..j] == zones[..j];
        devices := PushZoneDevices(devices, zones[j]);
        j := j + 1;
      }
      assert zones[..j] == zones;
      assert banks[..i + 1][..i] == banks[..i];
      i := i + 1;
    }
    assert banks[..i] == banks;
    AllDevicesOfVisitedBranches(banks);
  }

  // ---------------------------------------------------------------- getDashboardSummary

  /** `totalBranches += ...` for one zone. */
  method CountZoneBranches(total: nat, z: Zone) returns (out: nat)
    ensures out == total + |ZoneBranches(z)|
  {
    if z.branches.Some? {
      out := total + |z.branches.value|;
    } else if z.nbgs.Some? {
      var nbgs := z.nbgs.value;
      out := total;
      var i := 0;
      while i < |nbgs|
        invariant 0 <= i <= |nbgs|
        invariant out == total + |ConcatMap(nbgs[..i], NbgBranches)|
      {
        var ros := nbgs[i].ros;
        var before := out;
        var j := 0;
        while j < |ros|
          invariant 0 <= j <= |ros|
          invariant out == before + |ConcatMap(ros[..j], RoBranches)|
        {
          assert ros[..j + 1][..j] == ros[..j];
          out := out + |ros[j].branches|;
          j := j + 1;
        }
        assert ros[..j] == ros;
        assert nbgs[..i + 1][..i] == nbgs[..i];
        i := i + 1;
      }
      assert nbgs[..i] == nbgs;
    } else {
      out := total;
    }
  }

  /** The counting loop of `getDashboardSummary`. */
  method CountBranches(banks: seq<Bank>) returns (total: nat)
    ensures total == |VisitedBranches(banks)|
  {
    total := 0;
    var i := 0;
    while i < |banks|
      invariant 0 <= i <= |banks|
      invariant total == |ConcatMap(banks[..i], BankBranches)|
    {
      var zones := banks[i].zones;
      var before := total;
      var j := 0;
      while j < |zones|
        invariant 0 <= j <= |zones|
        invariant total == before + |ConcatMap(zones[..j], ZoneBranches)|
      {
        assert zones[..j + 1][..j] == zones[..j];
        total := CountZoneBranches(total, zones[j]);
        j := j + 1;
      }
      assert zones[..j] == zones;
      assert banks[..i + 1][..i] == banks[..i];
      i := i + 1;
    }
    assert banks[..i] == banks;
  }

  datatype DashboardSummary = DashboardSummary(
    totalDevices: int,
    onlineDevices: int,
    offlineDevices: int,
    totalBranches: int,
    totalUsers: int,
    lastUpdated: string)

  function IsOnline(d: Device): bool {
    d.status == Online
  }

  /** `getDashboardSummary`; the current time is a parameter. */
  method GetDashboardSummary(banks: seq<Bank>, users: seq<User>, now: string) returns (s: DashboardSummary)
    ensures s.totalDevices == |AllDevices(banks)|
    ensures s.onlineDevices == |Filter(AllDevices(banks), IsOnline)|
    ensures 0 <= s.onlineDevices <= s.totalDevices
    ensures 0 <= s.offlineDevices && s.onlineDevices + s.offlineDevices == s.totalDevices
    ensures s.totalBranches == |VisitedBranches(banks)|
    ensures s.totalUsers == |users| && s.lastUpdated == now
  {
    var all := GetAllDevices(banks);
    var online := |Filter(all, IsOnline)|;
    var branches := CountBranches(banks);
    s := DashboardSummary(|all|, online, |all| - online, branches, |users|, now);
  }

  /** Branches that each hold four devices contribute four devices apiece. */
  lemma {:induction false} FourDevicesEach(bs: seq<Branch>)
    requires forall b :: b in bs ==> |b.devices| == 4
    ensures |ConcatMap(bs, BranchDevices)| == 4 * |bs|
  {
    if bs != [] {
      var init := bs[..|bs| - 1];
      assert forall b :: b in init ==> b in bs;
      FourDevicesEach(init);
      assert bs[|bs| - 1] in bs;
    }
  }

  lemma ZoneTotals(z: Zone, n: nat)
    requires |ZoneBranches(z)| == n && forall b :: b in ZoneBranches(z) ==> |b.devices| == 4
    ensures |ZoneDevices(z)| == 4 * n
  {
    ZoneDevicesOfBranches(z);
    FourDevicesEach(ZoneBranches(z));
  }

  lemma SbiTotals(sample: Sampler)
    ensures |BankBranches(Banks(sample)[0])| == 5
    ensures |BankDevices(Banks(sample)[0])| == 20
  {
    var zones := SbiZones(sample);
    var z1, z2 := zones[0], zones[1];
    ZoneTotals(z1, 3);
    ZoneTotals(z2, 2);
    ConcatMapTwo(z1, z2, ZoneBranches);
    ConcatMapTwo(z1, z2, ZoneDevices);
  }

  lemma IndianBankTotals(sample: Sampler)
    ensures |BankBranches(Banks(sample)[1])| == 3
    ensures |BankDevices(Banks(sample)[1])| == 12
  {
    var zones := IndianBankZones(sample);
    var z1, z2 := zones[0], zones[1];
    var n1, n2 := z1.nbgs.value[0], z2.nbgs.value[0];
    var r1, r2 := n1.ros[0], n2.ros[0];
    ConcatMapOne(r1, RoBranches);
    ConcatMapOne(n1, NbgBranches);
    ConcatMapOne(r2, RoBranches);
    ConcatMapOne(n2, NbgBranches);
    ZoneTotals(z1, 2);
    ZoneTotals(z2, 1);
    ConcatMapTwo(z1, z2, ZoneBranches);
    ConcatMapTwo(z1, z2, ZoneDevices);
  }

  /** Whatever the random draws, the fixed data has 8 branches, 32 devices and 3 users. */
  lemma FixedDataTotals(sample: Sampler)
    ensures |VisitedBranches(Banks(sample))| == 8
    ensures |AllDevices(Banks(sample))| == 32
    ensures |Users| == 3
  {
    var banks := Banks(sample);
    SbiTotals(sample);
    IndianBankTotals(sample);
    ConcatMapTwo(banks[0], banks[1], BankBranches);
    ConcatMapTwo(banks[0], banks[1], BankDevices);
  }
}
