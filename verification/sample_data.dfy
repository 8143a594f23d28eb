/** The `load_sample_data` management command
    (core/management/commands/load_sample_data.py): the region and woreda
    codes it derives, the insert-if-absent steps that make a second run
    change nothing, and the sample patients it draws. */
module SampleData {
  import opened Outcomes
  import Text
  import Patients
  import Labelling

  // ---------------------------------------------------------------------
  // Codes

  /** `name[:3].upper()`: the first three letters, upper-cased. It is a
      region's code, and the tail of a woreda's code. */
  function ShortCode(name: string): (c: string)
    ensures |c| == if |name| < 3 then |name| else 3
    ensures forall i :: 0 <= i < |c| ==> c[i] == Text.UpperChar(name[i])
  {
    Text.Upper(Text.Take(name, 3))
  }

  /** A woreda's code: its region's code, a dash, and the first three
      letters of the woreda's name, upper-cased. */
  function WoredaCode(regionCode: string, name: string): (c: string)
    ensures |c| == |regionCode| + 1 + |ShortCode(name)|
    ensures c[..|regionCode|] == regionCode && c[|regionCode|] == '-'
    ensures c[|regionCode| + 1..] == ShortCode(name)
  {
    regionCode + "-" + ShortCode(name)
  }

  /** A woreda code determines the region code and the woreda's short
      code, among region codes of one length. */
  lemma WoredaCodeInjective(r1: string, n1: string, r2: string, n2: string)
    requires |r1| == |r2|
    requires WoredaCode(r1, n1) == WoredaCode(r2, n2)
    ensures r1 == r2 && ShortCode(n1) == ShortCode(n2)
  {
    var c := WoredaCode(r1, n1);
    assert r1 == c[..|r1|] == r2;
    assert ShortCode(n1) == c[|r1| + 1..] == ShortCode(n2);
  }

  /** Reading off a short code letter by letter. */
  lemma ShortCodeIs(name: string, code: string)
    requires |name| >= 3 && |code| == 3
    requires code[0] == Text.UpperChar(name[0]) && code[1] == Text.UpperChar(name[1])
    requires code[2] == Text.UpperChar(name[2])
    ensures ShortCode(name) == code
  {
  }

  /** Reading off a woreda code from its parts. */
  lemma WoredaCodeIs(regionCode: string, name: string, short: string, code: string)
    requires ShortCode(name) == short
    requires code == regionCode + "-" + short
    ensures WoredaCode(regionCode, name) == code
  {
  }

  // ---------------------------------------------------------------------
  // The fixed table of regions and woredas

  const RegionNames: seq<string> := ["Oromia", "Amhara", "Tigray", "SNNPR", "Addis Ababa"]

  const WoredaNames: seq<seq<string>> := [
    ["Adama", "Jimma", "Nekemte", "Dire Dawa"],
    ["Bahir Dar", "Gondar", "Debre Markos"],
    ["Mekelle", "Axum", "Shire"],
    ["Hawassa", "Arba Minch", "Wolaita"],
    ["Bole", "Kirkos", "Yeka", "Arada"]
  ]

  datatype Region = Region(name: string, code: string)

  datatype Woreda = Woreda(regionCode: string, name: string, code: string)

  function RegionRows(): (rows: seq<Region>)
    ensures |rows| == |RegionNames|
    ensures forall i :: 0 <= i < |rows| ==> rows[i] == Region(RegionNames[i], ShortCode(RegionNames[i]))
  {
    seq(|RegionNames|, i requires 0 <= i < |RegionNames| => Region(RegionNames[i], ShortCode(RegionNames[i])))
  }

  /** The woredas of the `i`-th region, in the table's order. */
  function RegionWoredas(i: nat): (rows: seq<Woreda>)
    requires i < |RegionNames|
    ensures |rows| == |WoredaNames[i]|
    ensures forall k :: 0 <= k < |rows| ==>
      rows[k] == Woreda(ShortCode(RegionNames[i]), WoredaNames[i][k], WoredaCode(ShortCode(RegionNames[i]), WoredaNames[i][k]))
  {
    var rc := ShortCode(RegionNames[i]);
    seq(|WoredaNames[i]|, k requires 0 <= k < |WoredaNames[i]| => Woreda(rc, WoredaNames[i][k], WoredaCode(rc, WoredaNames[i][k])))
  }

  /** The woredas of the regions from the `i`-th on, region by region. */
  function WoredaRowsFrom(i: nat): (rows: seq<Woreda>)
    requires i <= |RegionNames|
    decreases |RegionNames| - i
  {
    if i == |RegionNames| then [] else RegionWoredas(i) + WoredaRowsFrom(i + 1)
  }

  function WoredaRows(): seq<Woreda> {
    WoredaRowsFrom(0)
  }

  function RegionCodes(rows: seq<Region>): seq<string> {
    seq(|rows|, i requires 0 <= i < |rows| => rows[i].code)
  }

  function WoredaCodes(rows: seq<Woreda>): seq<string> {
    seq(|rows|, i requires 0 <= i < |rows| => rows[i].code)
  }

  predicate Distinct(xs: seq<string>) {
    forall i, j :: 0 <= i < j < |xs| ==> xs[i] != xs[j]
  }

  /** The region codes the command derives, in the table's order. */
  const RegionCodeTable: seq<string> := ["ORO", "AMH", "TIG", "SNN", "ADD"]

  lemma RegionCodeTableDistinct()
    ensures Distinct(RegionCodeTable)
  {
  }

  /** The region codes the command derives. */
  lemma RegionCodesOfTable()
    ensures RegionCodes(RegionRows()) == RegionCodeTable
  {
    ShortCodeIs("Oromia", "ORO");
    ShortCodeIs("Amhara", "AMH");
    ShortCodeIs("Tigray", "TIG");
    ShortCodeIs("SNNPR", "SNN");
    ShortCodeIs("Addis Ababa", "ADD");
  }

  /** The region codes are pairwise distinct, as the unique `code` column
      of regions requires. */
  lemma RegionCodesDistinct()
    ensures Distinct(RegionCodes(RegionRows()))
  {
    RegionCodesOfTable();
    RegionCodeTableDistinct();
  }

  lemma WoredaCodesAppend(a: seq<Woreda>, b: seq<Woreda>)
    ensures WoredaCodes(a + b) == WoredaCodes(a) + WoredaCodes(b)
  {
  }

  lemma OromiaCodes()
    ensures WoredaCodes(RegionWoredas(0)) == ["ORO-ADA", "ORO-JIM", "ORO-NEK", "ORO-DIR"]
  {
    ShortCodeIs("Oromia", "ORO");
    var rows := RegionWoredas(0);
    ShortCodeIs("Adama", "ADA");
    WoredaCodeIs("ORO", "Adama", "ADA", "ORO-ADA");
    ShortCodeIs("Jimma", "JIM");
    WoredaCodeIs("ORO", "Jimma", "JIM", "ORO-JIM");
    ShortCodeIs("Nekemte", "NEK");
    WoredaCodeIs("ORO", "Nekemte", "NEK", "ORO-NEK");
    ShortCodeIs("Dire Dawa", "DIR");
    WoredaCodeIs("ORO", "Dire Dawa", "DIR", "ORO-DIR");
  }

  lemma AmharaCodes()
    ensures WoredaCodes(RegionWoredas(1)) == ["AMH-BAH", "AMH-GON", "AMH-DEB"]
  {
    ShortCodeIs("Amhara", "AMH");
    var rows := RegionWoredas(1);
    ShortCodeIs("Bahir Dar", "BAH");
    WoredaCodeIs("AMH", "Bahir Dar", "BAH", "AMH-BAH");
    ShortCodeIs("Gondar", "GON");
    WoredaCodeIs("AMH", "Gondar", "GON", "AMH-GON");
    ShortCodeIs("Debre Markos", "DEB");
    WoredaCodeIs("AMH", "Debre Markos", "DEB", "AMH-DEB");
  }

  lemma TigrayCodes()
    ensures WoredaCodes(RegionWoredas(2)) == ["TIG-MEK", "TIG-AXU", "TIG-SHI"]
  {
    ShortCodeIs("Tigray", "TIG");
    var rows := RegionWoredas(2);
    ShortCodeIs("Mekelle", "MEK");
    WoredaCodeIs("TIG", "Mekelle", "MEK", "TIG-MEK");
    ShortCodeIs("Axum", "AXU");
    WoredaCodeIs("TIG", "Axum", "AXU", "TIG-AXU");
    ShortCodeIs("Shire", "SHI");
    WoredaCodeIs("TIG", "Shire", "SHI", "TIG-SHI");
  }

  lemma SnnprCodes()
    ensures WoredaCodes(RegionWoredas(3)) == ["SNN-HAW", "SNN-ARB", "SNN-WOL"]
  {
    ShortCodeIs("SNNPR", "SNN");
    var rows := RegionWoredas(3);
    ShortCodeIs("Hawassa", "HAW");
    WoredaCodeIs("SNN", "Hawassa", "HAW", "SNN-HAW");
    ShortCodeIs("Arba Minch", "ARB");
    WoredaCodeIs("SNN", "Arba Minch", "ARB", "SNN-ARB");
    ShortCodeIs("Wolaita", "WOL");
    WoredaCodeIs("SNN", "Wolaita", "WOL", "SNN-WOL");
  }

  lemma AddisAbabaCodes()
    ensures WoredaCodes(RegionWoredas(4)) == ["ADD-BOL", "ADD-KIR", "ADD-YEK", "ADD-ARA"]
  {
    ShortCodeIs("Addis Ababa", "ADD");
    var rows := RegionWoredas(4);
    ShortCodeIs("Bole", "BOL");
    WoredaCodeIs("ADD", "Bole", "BOL", "ADD-BOL");
    ShortCodeIs("Kirkos", "KIR");
    WoredaCodeIs("ADD", "Kirkos", "KIR", "ADD-KIR");
    ShortCodeIs("Yeka", "YEK");
    WoredaCodeIs("ADD", "Yeka", "YEK", "ADD-YEK");
    ShortCodeIs("Arada", "ARA");
    WoredaCodeIs("ADD", "Arada", "ARA", "ADD-ARA");
  }

  /** The woreda codes the command derives, in the table's order. */
  const WoredaCodeTable: seq<string> := [
    "ORO-ADA", "ORO-JIM", "ORO-NEK", "ORO-DIR",
    "AMH-BAH", "AMH-GON", "AMH-DEB",
    "TIG-MEK", "TIG-AXU", "TIG-SHI",
    "SNN-HAW", "SNN-ARB", "SNN-WOL",
    "ADD-BOL", "ADD-KIR", "ADD-YEK", "ADD-ARA"]

  lemma WoredaCodeTableDistinct()
    ensures Distinct(WoredaCodeTable)
  {
  }

  lemma AddisAbabaOnwards()
    ensures WoredaCodes(WoredaRowsFrom(4)) == WoredaCodeTable[13..]
  {
    WoredaCodesAppend(RegionWoredas(4), WoredaRowsFrom(5));
    AddisAbabaCodes();
  }

  lemma SnnprOnwards()
    ensures WoredaCodes(WoredaRowsFrom(3)) == WoredaCodeTable[10..]
  {
    WoredaCodesAppend(RegionWoredas(3), WoredaRowsFrom(4));
    AddisAbabaOnwards();
    SnnprCodes();
  }

  lemma TigrayOnwards()
    ensures WoredaCodes(WoredaRowsFrom(2)) == WoredaCodeTable[7..]
  {
    WoredaCodesAppend(RegionWoredas(2), WoredaRowsFrom(3));
    SnnprOnwards();
    TigrayCodes();
  }

  lemma AmharaOnwards()
    ensures WoredaCodes(WoredaRowsFrom(1)) == WoredaCodeTable[4..]
  {
    WoredaCodesAppend(RegionWoredas(1), WoredaRowsFrom(2));
    TigrayOnwards();
    AmharaCodes();
  }

  /** The woreda codes the command derives. */
  lemma WoredaCodesOfTable()
    ensures WoredaCodes(WoredaRows()) == WoredaCodeTable
  {
    WoredaCodesAppend(RegionWoredas(0), WoredaRowsFrom(1));
    AmharaOnwards();
    OromiaCodes();
  }

  /** The woreda codes are pairwise distinct, as the unique `code` column
      of woredas requires. */
  lemma WoredaCodesDistinct()
    ensures Distinct(WoredaCodes(WoredaRows()))
  {
    WoredaCodesOfTable();
    WoredaCodeTableDistinct();
  }

  // ---------------------------------------------------------------------
  // get_or_create and idempotence

  /** `get_or_create` with every column given: an identical row is
      returned as it is; otherwise a new row is inserted, which the unique
      `code` column refuses when another row already holds that code. */
  function GetOrCreate<T(==)>(table: seq<T>, row: T, code: T -> string): (r: Result<seq<T>>)
    ensures row in table ==> r == Ok(table)
    ensures row !in table ==> (r.Ok? <==> forall i :: 0 <= i < |table| ==> code(table[i]) != code(row))
    ensures r.Ok? ==> table <= r.value && row in r.value && |r.value| <= |table| + 1
    ensures r.Err? ==> r.fault == NotUnique(code(row))
  {
    if row in table then Ok(table)
    else if exists i :: 0 <= i < |table| && code(table[i]) == code(row) then Err(NotUnique(code(row)))
    else Ok(table + [row])
  }

  /** The rows `rows` passed to `get_or_create` one after another. */
  function GetOrCreateAll<T(==)>(table: seq<T>, rows: seq<T>, code: T -> string): (r: Result<seq<T>>)
    ensures r.Ok? ==> table <= r.value
    ensures r.Ok? ==> forall x :: x in rows ==> x in r.value
    ensures r.Ok? ==> forall x :: x in r.value ==> x in table || x in rows
    decreases |rows|
  {
    if |rows| == 0 then Ok(table)
    else
      var next :- GetOrCreate(table, rows[0], code);
      GetOrCreateAll(next, rows[1..], code)
  }

  /** Rows that are all present already change nothing. */
  lemma {:induction false} GetOrCreateAllPresent<T>(table: seq<T>, rows: seq<T>, code: T -> string)
    requires forall x :: x in rows ==> x in table
    ensures GetOrCreateAll(table, rows, code) == Ok(table)
  {
    if |rows| > 0 {
      assert rows[0] in table;
      assert forall x :: x in rows[1..] ==> x in rows;
      GetOrCreateAllPresent(table, rows[1..], code);
    }
  }

  /** Running the same `get_or_create` steps a second time changes nothing. */
  lemma GetOrCreateAllIdempotent<T>(table: seq<T>, rows: seq<T>, code: T -> string)
    requires GetOrCreateAll(table, rows, code).Ok?
    ensures GetOrCreateAll(GetOrCreateAll(table, rows, code).value, rows, code) == GetOrCreateAll(table, rows, code)
  {
    GetOrCreateAllPresent(GetOrCreateAll(table, rows, code).value, rows, code);
  }

  /** Into a table that holds none of their codes, rows with pairwise
      distinct codes all go in, in order. */
  lemma {:induction false} GetOrCreateAllFresh<T>(table: seq<T>, rows: seq<T>, code: T -> string)
    requires forall i, j :: 0 <= i < j < |rows| ==> code(rows[i]) != code(rows[j])
    requires forall i, k :: 0 <= i < |table| && 0 <= k < |rows| ==> code(table[i]) != code(rows[k])
    ensures GetOrCreateAll(table, rows, code) == Ok(table + rows)
    decreases |rows|
  {
    if |rows| > 0 {
      assert forall i :: 0 <= i < |table| ==> code(table[i]) != code(rows[0]);
      assert rows[0] !in table;
      var next := table + [rows[0]];
      assert GetOrCreate(table, rows[0], code) == Ok(next);
      assert forall i, k :: 0 <= i < |next| && 0 <= k < |rows[1..]| ==> code(next[i]) != code(rows[1..][k]) by {
        forall i, k | 0 <= i < |next| && 0 <= k < |rows[1..]|
          ensures code(next[i]) != code(rows[1..][k])
        {
          if i < |table| {
            assert next[i] == table[i] && rows[1..][k] == rows[k + 1];
          } else {
            assert next[i] == rows[0] && rows[1..][k] == rows[k + 1];
          }
        }
      }
      GetOrCreateAllFresh(next, rows[1..], code);
      assert next + rows[1..] == table + rows;
    } else {
      assert table + rows == table;
    }
  }

  datatype Geography = Geography(regions: seq<Region>, woredas: seq<Woreda>)

  function RegionKey(r: Region): string {
    r.code
  }

  function WoredaKey(w: Woreda): string {
    w.code
  }

  /** The first part of the command: every region of the table, then its
      woredas, through `get_or_create`. */
  function LoadGeography(g: Geography): (r: Result<Geography>)
    ensures r.Ok? ==> g.regions <= r.value.regions && g.woredas <= r.value.woredas
    ensures r.Ok? ==> (forall x :: x in RegionRows() ==> x in r.value.regions)
                      && (forall x :: x in WoredaRows() ==> x in r.value.woredas)
  {
    var regions :- GetOrCreateAll(g.regions, RegionRows(), RegionKey);
    var woredas :- GetOrCreateAll(g.woredas, WoredaRows(), WoredaKey);
    Ok(Geography(regions, woredas))
  }

  /** On an empty database the regions and woredas all go in, in the
      table's order. */
  lemma LoadGeographyFresh()
    ensures LoadGeography(Geography([], [])) == Ok(Geography(RegionRows(), WoredaRows()))
  {
    RegionsFresh();
    WoredasFresh();
  }

  lemma RegionsFresh()
    ensures GetOrCreateAll([], RegionRows(), RegionKey) == Ok(RegionRows())
  {
    var rows := RegionRows();
    RegionCodesDistinct();
    assert forall i :: 0 <= i < |rows| ==> RegionKey(rows[i]) == RegionCodes(rows)[i];
    GetOrCreateAllFresh([], rows, RegionKey);
    assert [] + rows == rows;
  }

  lemma WoredasFresh()
    ensures GetOrCreateAll([], WoredaRows(), WoredaKey) == Ok(WoredaRows())
  {
    var rows := WoredaRows();
    WoredaCodesDistinct();
    assert forall i :: 0 <= i < |rows| ==> WoredaKey(rows[i]) == WoredaCodes(rows)[i];
    GetOrCreateAllFresh([], rows, WoredaKey);
    assert [] + rows == rows;
  }

  /** Loading the regions and woredas again changes nothing. */
  lemma LoadGeographyIdempotent(g: Geography)
    requires LoadGeography(g).Ok?
    ensures LoadGeography(LoadGeography(g).value) == LoadGeography(g)
  {
    var after := LoadGeography(g).value;
    GetOrCreateAllPresent(after.regions, RegionRows(), RegionKey);
    GetOrCreateAllPresent(after.woredas, WoredaRows(), WoredaKey);
  }

  // ---------------------------------------------------------------------
  // Users and patients: created only when absent

  /** Some row of the table has the key `k`. */
  predicate HasKey<T, K(==)>(table: seq<T>, key: T -> K, k: K) {
    exists i :: 0 <= i < |table| && key(table[i]) == k
  }

  /** `if not X.objects.filter(key).exists(): X.objects.create(...)`. */
  function CreateIfAbsent<T, K(==)>(table: seq<T>, row: T, key: T -> K): (r: seq<T>)
    ensures HasKey(table, key, key(row)) ==> r == table
    ensures !HasKey(table, key, key(row)) ==> r == table + [row]
  {
    if HasKey(table, key, key(row)) then table else table + [row]
  }

  /** A key present in a table is present in every extension of it. */
  lemma HasKeyExtends<T, K>(table: seq<T>, longer: seq<T>, key: T -> K, k: K)
    requires table <= longer && HasKey(table, key, k)
    ensures HasKey(longer, key, k)
  {
    var i :| 0 <= i < |table| && key(table[i]) == k;
    assert longer[i] == table[i];
  }

  /** The rows `rows` created one after another, each only when absent. */
  function CreateAllIfAbsent<T, K(==)>(table: seq<T>, rows: seq<T>, key: T -> K): (r: seq<T>)
    ensures table <= r && |r| <= |table| + |rows|
    ensures forall k :: 0 <= k < |rows| ==> HasKey(r, key, key(rows[k]))
    ensures forall i :: |table| <= i < |r| ==> HasKey(rows, key, key(r[i]))
    decreases |rows|
  {
    if |rows| == 0 then table
    else
      var next := CreateIfAbsent(table, rows[0], key);
      var r := CreateAllIfAbsent(next, rows[1..], key);
      assert forall i :: |table| <= i < |r| ==> HasKey(rows, key, key(r[i])) by {
        forall i | |table| <= i < |r|
          ensures HasKey(rows, key, key(r[i]))
        {
          if i < |next| {
            assert r[i] == next[i] == rows[0];
          } else {
            var k :| 0 <= k < |rows[1..]| && key(rows[1..][k]) == key(r[i]);
            assert rows[k + 1] == rows[1..][k];
          }
        }
      }
      assert HasKey(next, key, key(rows[0])) by {
        if !HasKey(table, key, key(rows[0])) {
          assert next[|table|] == rows[0];
        }
      }
      HasKeyExtends(next, r, key, key(rows[0]));
      assert forall k :: 1 <= k < |rows| ==> rows[k] == rows[1..][k - 1];
      r
  }

  /** No two rows share a key. */
  predicate UniqueKeys<T, K(==)>(table: seq<T>, key: T -> K) {
    forall i, j :: 0 <= i < j < |table| ==> key(table[i]) != key(table[j])
  }

  /** Creating only when absent never duplicates a key. */
  lemma {:induction false} CreateAllKeepsKeysUnique<T, K>(table: seq<T>, rows: seq<T>, key: T -> K)
    requires UniqueKeys(table, key)
    ensures UniqueKeys(CreateAllIfAbsent(table, rows, key), key)
    decreases |rows|
  {
    if |rows| > 0 {
      var next := CreateIfAbsent(table, rows[0], key);
      assert UniqueKeys(next, key);
      CreateAllKeepsKeysUnique(next, rows[1..], key);
    }
  }

  /** Rows whose keys are all present already change nothing. */
  lemma {:induction false} CreateAllPresent<T, K>(table: seq<T>, rows: seq<T>, key: T -> K)
    requires forall k :: 0 <= k < |rows| ==> HasKey(table, key, key(rows[k]))
    ensures CreateAllIfAbsent(table, rows, key) == table
    decreases |rows|
  {
    if |rows| > 0 {
      assert HasKey(table, key, key(rows[0]));
      assert forall k :: 0 <= k < |rows[1..]| ==> rows[1..][k] == rows[k + 1];
      CreateAllPresent(table, rows[1..], key);
    }
  }

  /** Creating the same rows a second time changes nothing. */
  lemma CreateAllIdempotent<T, K>(table: seq<T>, rows: seq<T>, key: T -> K)
    ensures CreateAllIfAbsent(CreateAllIfAbsent(table, rows, key), rows, key) == CreateAllIfAbsent(table, rows, key)
  {
    CreateAllPresent(CreateAllIfAbsent(table, rows, key), rows, key);
  }

  // ---------------------------------------------------------------------
  // Sample users

  datatype User = User(username: string, role: string)

  /** The accounts the command creates, each only when its username is
      absent: the administrator, three doctors, two nurses, the laboratory
      technician and the pharmacist. */
  const SampleUsers: seq<User> := [
    User("admin", "admin"),
    User("doctor", "doctor"), User("doctor2", "doctor"), User("doctor3", "doctor"),
    User("nurse", "nurse"), User("nurse2", "nurse"),
    User("lab", "lab_technician"),
    User("pharmacy", "pharmacist")
  ]

  function Username(u: User): string {
    u.username
  }

  function LoadUsers(users: seq<User>): (r: seq<User>)
    ensures users <= r
    ensures forall k :: 0 <= k < |SampleUsers| ==> HasKey(r, Username, Username(SampleUsers[k]))
  {
    CreateAllIfAbsent(users, SampleUsers, Username)
  }

  /** Loading the users never gives two accounts one username. */
  lemma LoadUsersKeepsUsernamesUnique(users: seq<User>)
    requires UniqueKeys(users, Username)
    ensures UniqueKeys(LoadUsers(users), Username)
  {
    CreateAllKeepsKeysUnique(users, SampleUsers, Username);
  }

  /** Loading the users again changes nothing. */
  lemma LoadUsersIdempotent(users: seq<User>)
    ensures LoadUsers(LoadUsers(users)) == LoadUsers(users)
  {
    CreateAllIdempotent(users, SampleUsers, Username);
  }

  // ---------------------------------------------------------------------
  // Sample patients

  const FirstNames: seq<string> := ["Abebe", "Tigist", "Dawit", "Almaz", "Kebede", "Hanna", "Yohannes", "Marta"]
  const LastNames: seq<string> := ["Tesfaye", "Haile", "Girma", "Bekele", "Tadesse", "Solomon", "Kebede", "Abera"]

  /** The number of iterations of the patient loop. */
  const SampleRounds: nat := 20

  /** 28 is the last day every month has: a day drawn up to 29 could fail
      in February of a common year such as 1950. */
  lemma TwentyEightIsSafe(year: int, month: int)
    requires 1 <= year <= 9999 && 1 <= month <= 12
    ensures Patients.ValidDate(Patients.Date(year, month, 28)) && !Patients.ValidDate(Patients.Date(1950, 2, 29))
  {
  }

  /** The random draws behind one sample patient. */
  datatype PatientDraw = PatientDraw(year: nat, month: nat, day: nat, gender: nat)

  datatype SamplePatient = SamplePatient(firstName: string, lastName: string, dateOfBirth: Patients.Date, gender: string)

  /** The patient of the `i`-th round: the names at `i` modulo the list
      length, a birth date from 1950 to 2010 with a day from 1 to 28, and
      a gender. */
  function SamplePatientOf(i: nat, draw: PatientDraw): (p: SamplePatient)
    ensures p.firstName == FirstNames[i % |FirstNames|] && p.lastName == LastNames[i % |LastNames|]
    ensures Patients.ValidDate(p.dateOfBirth)
    ensures 1950 <= p.dateOfBirth.year <= 2010 && 1 <= p.dateOfBirth.day <= 28
    ensures p.gender in Patients.GenderChoices
  {
    var dob := Patients.Date(
      Labelling.Pick(Labelling.Range(1950, 2010), draw.year),
      Labelling.Pick(Labelling.Range(1, 12), draw.month),
      Labelling.Pick(Labelling.Range(1, 28), draw.day));
    SamplePatient(FirstNames[i % |FirstNames|], LastNames[i % |LastNames|], dob,
      Labelling.Choice(["M", "F"], draw.gender))
  }

  /** Patients are looked up by first and last name. */
  function FullNameKey(p: SamplePatient): (string, string) {
    (p.firstName, p.lastName)
  }

  /** The patients of all rounds, in order. */
  function SampleRows(draws: seq<PatientDraw>): (rows: seq<SamplePatient>)
    requires |draws| == SampleRounds
    ensures |rows| == SampleRounds
    ensures forall i :: 0 <= i < |rows| ==> rows[i] == SamplePatientOf(i, draws[i])
  {
    seq(SampleRounds, i requires 0 <= i < SampleRounds => SamplePatientOf(i, draws[i]))
  }

  /** The patient loop: each round creates its patient only when nobody of
      that first and last name is registered. */
  function LoadPatients(patients: seq<SamplePatient>, draws: seq<PatientDraw>): (r: seq<SamplePatient>)
    requires |draws| == SampleRounds
    ensures patients <= r
  {
    CreateAllIfAbsent(patients, SampleRows(draws), FullNameKey)
  }

  /** The distinct keys of a table. */
  function KeySet<T, K>(table: seq<T>, key: T -> K): set<K> {
    set i | 0 <= i < |table| :: key(table[i])
  }

  /** A table whose keys are unique has as many keys as rows. */
  lemma {:induction false} KeySetSize<T, K>(table: seq<T>, key: T -> K)
    requires UniqueKeys(table, key)
    ensures |KeySet(table, key)| == |table|
  {
    if |table| > 0 {
      var front := table[..|table| - 1];
      var last := table[|table| - 1];
      assert UniqueKeys(front, key);
      KeySetSize(front, key);
      assert KeySet(table, key) == KeySet(front, key) + {key(last)} by {
        forall k | k in KeySet(table, key)
          ensures k in KeySet(front, key) + {key(last)}
        {
          var i :| 0 <= i < |table| && key(table[i]) == k;
          if i < |table| - 1 {
            assert front[i] == table[i];
          }
        }
        forall k | k in KeySet(front, key)
          ensures k in KeySet(table, key)
        {
          var i :| 0 <= i < |front| && key(front[i]) == k;
          assert table[i] == front[i];
        }
      }
      assert key(last) !in KeySet(front, key) by {
        forall i | 0 <= i < |front|
          ensures key(front[i]) != key(last)
        {
          assert front[i] == table[i];
        }
      }
    } else {
      assert KeySet(table, key) == {};
    }
  }

  /** The eight name pairs the rounds cycle through. */
  function NamePairs(): seq<(string, string)> {
    seq(|FirstNames|, k requires 0 <= k < |FirstNames| => (FirstNames[k], LastNames[k]))
  }

  /** The name pairs of the rounds, as a set. */
  function NameSet(): set<(string, string)> {
    set k | 0 <= k < |FirstNames| :: NamePairs()[k]
  }

  /** The eight name pairs are distinct. */
  lemma NameSetSize()
    ensures |NameSet()| == 8
  {
    var id := (x: (string, string)) => x;
    assert UniqueKeys(NamePairs(), id);
    KeySetSize(NamePairs(), id);
    assert KeySet(NamePairs(), id) == NameSet();
  }

  /** Every name registered on an empty database is one of the eight pairs. */
  lemma FreshLoadNamesAmongPairs(draws: seq<PatientDraw>)
    requires |draws| == SampleRounds
    ensures KeySet(LoadPatients([], draws), FullNameKey) <= NameSet()
  {
    var rows := SampleRows(draws);
    var r := LoadPatients([], draws);
    forall n | n in KeySet(r, FullNameKey)
      ensures n in NameSet()
    {
      var i :| 0 <= i < |r| && FullNameKey(r[i]) == n;
      var j :| 0 <= j < |rows| && FullNameKey(rows[j]) == n;
      assert n == NamePairs()[j % 8];
    }
  }

  lemma SmallRemainder(k: int, n: int)
    requires 0 <= k < n
    ensures k % n == k
  {
  }

  /** Every one of the eight pairs is registered. */
  lemma FreshLoadCoversPairs(draws: seq<PatientDraw>)
    requires |draws| == SampleRounds
    ensures NameSet() <= KeySet(LoadPatients([], draws), FullNameKey)
  {
    var rows := SampleRows(draws);
    var r := LoadPatients([], draws);
    forall n | n in NameSet()
      ensures n in KeySet(r, FullNameKey)
    {
      var k :| 0 <= k < 8 && NamePairs()[k] == n;
      assert |FirstNames| == |LastNames| == 8;
      SmallRemainder(k, 8);
      assert rows[k].firstName == FirstNames[k] && rows[k].lastName == LastNames[k];
      assert HasKey(r, FullNameKey, FullNameKey(rows[k]));
      var i :| 0 <= i < |r| && FullNameKey(r[i]) == n;
    }
  }

  /** On an empty database the twenty rounds register only eight patients:
      both name lists have eight entries, so round `i + 8` repeats the
      names of round `i` and finds them registered. */
  lemma FreshLoadRegistersEight(draws: seq<PatientDraw>)
    requires |draws| == SampleRounds
    ensures |LoadPatients([], draws)| == 8
    ensures KeySet(LoadPatients([], draws), FullNameKey) == NameSet()
  {
    var r := LoadPatients([], draws);
    CreateAllKeepsKeysUnique([], SampleRows(draws), FullNameKey);
    KeySetSize(r, FullNameKey);
    FreshLoadNamesAmongPairs(draws);
    FreshLoadCoversPairs(draws);
    var keys := KeySet(r, FullNameKey);
    assert keys == NameSet();
    NameSetSize();
    assert |r| == |keys| == |NameSet()|;
  }

  /** A second run registers nobody new, whatever its random draws: the
      names of each round depend only on the round. */
  lemma LoadPatientsIdempotent(patients: seq<SamplePatient>, first: seq<PatientDraw>, second: seq<PatientDraw>)
    requires |first| == SampleRounds && |second| == SampleRounds
    ensures LoadPatients(LoadPatients(patients, first), second) == LoadPatients(patients, first)
  {
    var r := LoadPatients(patients, first);
    var rows1 := SampleRows(first);
    var rows2 := SampleRows(second);
    assert forall k :: 0 <= k < |rows2| ==> FullNameKey(rows2[k]) == FullNameKey(rows1[k]);
    CreateAllPresent(r, rows2, FullNameKey);
  }

  // ---------------------------------------------------------------------
  // The whole command

  datatype Database = Database(geography: Geography, users: seq<User>, patients: seq<SamplePatient>)

  /** `handle()`: regions and woredas, then the users, then the patients. */
  function LoadSampleData(db: Database, draws: seq<PatientDraw>): (r: Result<Database>)
    requires |draws| == SampleRounds
    ensures r.Ok? <==> LoadGeography(db.geography).Ok?
    ensures r.Ok? ==> r.value.users == LoadUsers(db.users) && r.value.patients == LoadPatients(db.patients, draws)
  {
    var geography :- LoadGeography(db.geography);
    Ok(Database(geography, LoadUsers(db.users), LoadPatients(db.patients, draws)))
  }

  /** Running the command again, with any draws, changes nothing. */
  lemma LoadSampleDataIdempotent(db: Database, first: seq<PatientDraw>, second: seq<PatientDraw>)
    requires |first| == SampleRounds && |second| == SampleRounds
    requires LoadSampleData(db, first).Ok?
    ensures LoadSampleData(LoadSampleData(db, first).value, second) == LoadSampleData(db, first)
  {
    LoadGeographyIdempotent(db.geography);
    LoadUsersIdempotent(db.users);
    LoadPatientsIdempotent(db.patients, first, second);
  }

  /** On an empty database the command succeeds, with every region and
      woreda of the table and eight patients. */
  lemma FreshLoadSucceeds(draws: seq<PatientDraw>)
    requires |draws| == SampleRounds
    ensures var r := LoadSampleData(Database(Geography([], []), [], []), draws);
            r.Ok? && r.value.geography == Geography(RegionRows(), WoredaRows())
            && |r.value.patients| == 8
  {
    LoadGeographyFresh();
    FreshLoadRegistersEight(draws);
  }
}
