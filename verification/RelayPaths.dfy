/** The names of the eight files.  The script derives six of them with
    Path.with_suffix, which replaces the last suffix of a name, so whether they are
    eight files at all depends on the two configured names. */
module RelayPaths {
  import opened Common
  import W = RelayWorld

  datatype Path = Path(parent: string, name: string)

  /** The last dot of a name, or its length when it has none. */
  function LastDot(name: string): (i: nat)
    ensures i <= |name|
    ensures i < |name| ==> name[i] == '.'
    ensures forall k | i < k < |name| :: name[k] != '.'
    ensures i == |name| ==> '.' !in name
  {
    if name == "" then 0
    else if name[|name| - 1] == '.' then |name| - 1
    else
      var i := LastDot(name[..|name| - 1]);
      if i == |name| - 1 then |name| else i
  }

  /** A leading or a trailing dot starts no suffix. */
  function Stem(name: string): string {
    var i := LastDot(name);
    if 0 < i < |name| - 1 then name[..i] else name
  }

  const NEW := ".pem.new"
  const RECOVERY := ".pem.recovery"
  const PREVIOUS := ".pem.previous"

  function WithSuffix(p: Path, suffix: string): Path {
    Path(p.parent, Stem(p.name) + suffix)
  }

  // ------------------------------------------------------------ when they are eight

  function Derived(p: Path): set<Path> {
    {WithSuffix(p, NEW), WithSuffix(p, RECOVERY), WithSuffix(p, PREVIOUS)}
  }

  function Names(key: Path, cert: Path): seq<Path> {
    [key, cert, WithSuffix(key, NEW), WithSuffix(cert, NEW), WithSuffix(key, RECOVERY), WithSuffix(cert, RECOVERY),
     WithSuffix(key, PREVIOUS), WithSuffix(cert, PREVIOUS)]
  }

  predicate Distinct(ps: seq<Path>) {
    forall i, j | 0 <= i < j < |ps| :: ps[i] != ps[j]
  }

  predicate SameStem(key: Path, cert: Path) {
    key.parent == cert.parent && Stem(key.name) == Stem(cert.name)
  }

  /** What an operator can check of the two settings. */
  predicate Apart(key: Path, cert: Path) {
    !SameStem(key, cert) && key !in Derived(cert) && cert !in Derived(key)
  }

  /** A name is none of its own derived names. */
  lemma NotItsOwn(p: Path)
    ensures p !in Derived(p)
  {
    var i := LastDot(p.name);
    if 0 < i < |p.name| - 1 {
      TwoDots(p.name, i, NEW);
      TwoDots(p.name, i, RECOVERY);
      TwoDots(p.name, i, PREVIOUS);
    }
  }

  lemma TwoDots(name: string, i: nat, suffix: string)
    requires i < |name| && (forall k | i < k < |name| :: name[k] != '.')
    requires |suffix| > 4 && suffix[4] == '.'
    ensures name != name[..i] + suffix
  {
    var other := name[..i] + suffix;
    assert other[i + 4] == suffix[4] == '.';
  }

  /** Two derived names are equal exactly when they have one stem and one suffix. */
  lemma DerivedNames(a: Path, b: Path)
    ensures WithSuffix(a, NEW) == WithSuffix(b, NEW) <==> SameStem(a, b)
    ensures WithSuffix(a, RECOVERY) == WithSuffix(b, RECOVERY) <==> SameStem(a, b)
    ensures WithSuffix(a, PREVIOUS) == WithSuffix(b, PREVIOUS) <==> SameStem(a, b)
    ensures WithSuffix(a, NEW) !in {WithSuffix(b, RECOVERY), WithSuffix(b, PREVIOUS)}
    ensures WithSuffix(a, RECOVERY) != WithSuffix(b, PREVIOUS)
  {
    var x, y := Stem(a.name), Stem(b.name);
    SameSuffix(x, y, NEW);
    SameSuffix(x, y, RECOVERY);
    SameSuffix(x, y, PREVIOUS);
    LastOf(x, NEW, y, RECOVERY);
    LastOf(x, NEW, y, PREVIOUS);
    LastOf(x, RECOVERY, y, PREVIOUS);
  }

  lemma SameSuffix(x: string, y: string, suffix: string)
    ensures x + suffix == y + suffix <==> x == y
  {
    if x + suffix == y + suffix {
      assert |x| == |y|;
      assert x == (x + suffix)[..|x|] == (y + suffix)[..|y|] == y;
    }
  }

  lemma LastOf(x: string, s: string, y: string, t: string)
    requires s != "" && t != "" && s[|s| - 1] != t[|t| - 1]
    ensures x + s != y + t
  {
    assert (x + s)[|x + s| - 1] == s[|s| - 1];
    assert (y + t)[|y + t| - 1] == t[|t| - 1];
  }

  /** The eight names are eight files exactly when the two configured names differ in
      directory or stem and neither is a derived name of the other. */
  lemma EightNames(key: Path, cert: Path)
    ensures Distinct(Names(key, cert)) <==> Apart(key, cert)
  {
    NotItsOwn(key);
    NotItsOwn(cert);
    DerivedNames(key, cert);
    DerivedNames(cert, key);
    DerivedNames(key, key);
    DerivedNames(cert, cert);
    var ps := Names(key, cert);
    if Distinct(ps) {
      assert ps[2] != ps[3];
      assert ps[0] != ps[3] && ps[0] != ps[5] && ps[0] != ps[7];
      assert ps[1] != ps[2] && ps[1] != ps[4] && ps[1] != ps[6];
    }
  }

  // ---------------------------------------------------- the swap on a file system

  datatype Content = KeyOf(gen: W.Gen) | CertOf(gen: W.Gen) | Other

  type Files = map<Path, Content>

  /** os.replace: None where it raises. */
  function Replace(fs: Files, from: Path, to: Path): Option<Files> {
    if from in fs then Some((fs - {from})[to := fs[from]]) else None
  }

  /** The six names a swap uses. */
  datatype Six = Six(key: Path, cert: Path, newKey: Path, newCert: Path, oldKey: Path, oldCert: Path)

  function SixOf(key: Path, cert: Path, staging: string): Six {
    Six(key, cert, WithSuffix(key, staging), WithSuffix(cert, staging), WithSuffix(key, PREVIOUS),
        WithSuffix(cert, PREVIOUS))
  }

  /** One of the four renames. */
  function Rename(fs: Files, p: Six, n: nat): Option<Files>
    requires 1 <= n <= 4
  {
    match n
    case 1 => Replace(fs, p.key, p.oldKey)
    case 2 => Replace(fs, p.cert, p.oldCert)
    case 3 => Replace(fs, p.newKey, p.key)
    case _ => Replace(fs, p.newCert, p.cert)
  }

  /** The files after n renames, or after those before the one that raised; and
      whether none did. */
  function Renamed(fs: Files, p: Six, n: nat): (Files, bool)
    requires n <= 4
  {
    if n == 0 then (fs, true)
    else
      var (before, going) := Renamed(fs, p, n - 1);
      if !going then (before, false)
      else
        match Rename(before, p, n)
        case None => (before, false)
        case Some(after) => (after, true)
  }

  predicate Has(fs: Files, c: Content) {
    exists p | p in fs :: fs[p] == c
  }

  predicate HasPair(fs: Files, g: W.Gen) {
    Has(fs, KeyOf(g)) && Has(fs, CertOf(g))
  }

  /** A live pair g, and then a pair h written under the staging names. */
  function WithPairs(fs: Files, p: Six, g: W.Gen, h: W.Gen): Files {
    fs[p.key := KeyOf(g)][p.cert := CertOf(g)][p.newKey := KeyOf(h)][p.newCert := CertOf(h)]
  }

  predicate Foreign(fs: Files, g: W.Gen) {
    forall p | p in fs :: fs[p] != KeyOf(g) && fs[p] != CertOf(g)
  }

  predicate SixFiles(p: Six) {
    Distinct([p.key, p.cert, p.newKey, p.newCert, p.oldKey, p.oldCert])
  }

  /** What with_suffix makes sure of: only the two stems, or a live name that is a
      derived name of the other, can make two of the six equal. */
  predicate Derives(p: Six) {
    && p.key !in {p.newKey, p.oldKey} && p.cert !in {p.newCert, p.oldCert}
    && p.newKey !in {p.oldKey, p.oldCert} && p.newCert !in {p.oldKey, p.oldCert}
    && (p.newKey == p.newCert <==> p.oldKey == p.oldCert)
    && (p.key == p.cert ==> p.newKey == p.newCert)
  }

  lemma SixDerive(key: Path, cert: Path, staging: string)
    requires staging == NEW || staging == RECOVERY
    ensures Derives(SixOf(key, cert, staging))
  {
    NotItsOwn(key);
    NotItsOwn(cert);
    DerivedNames(key, cert);
    DerivedNames(cert, key);
    DerivedNames(key, key);
    DerivedNames(cert, cert);
  }

  /** Where the four files are after n renames. */
  lemma WhereTheyAre(fs: Files, p: Six, g: W.Gen, h: W.Gen, n: nat)
    requires SixFiles(p) && n <= 4
    ensures var (files, going) := Renamed(WithPairs(fs, p, g, h), p, n);
            && going
            && (var k := if n < 1 then p.key else p.oldKey; k in files && files[k] == KeyOf(g))
            && (var c := if n < 2 then p.cert else p.oldCert; c in files && files[c] == CertOf(g))
            && (var k := if n < 3 then p.newKey else p.key; k in files && files[k] == KeyOf(h))
            && (var c := if n < 4 then p.newCert else p.cert; c in files && files[c] == CertOf(h))
  {
    var ps := [p.key, p.cert, p.newKey, p.newCert, p.oldKey, p.oldCert];
    assert ps[0] != ps[1] && ps[0] != ps[2] && ps[0] != ps[3] && ps[0] != ps[4] && ps[0] != ps[5];
    assert ps[1] != ps[2] && ps[1] != ps[3] && ps[1] != ps[4] && ps[1] != ps[5];
    assert ps[2] != ps[3] && ps[2] != ps[4] && ps[2] != ps[5];
    assert ps[3] != ps[4] && ps[3] != ps[5] && ps[4] != ps[5];
    if n > 0 {
      WhereTheyAre(fs, p, g, h, n - 1);
    }
  }

  /** Equal names lose a file: already on staging, or with the first or third rename. */
  lemma EqualNamesLose(fs: Files, p: Six, g: W.Gen, h: W.Gen) returns (n: nat)
    requires Derives(p) && !SixFiles(p) && g != h && Foreign(fs, g) && Foreign(fs, h)
    ensures n <= 4
    ensures var files := Renamed(WithPairs(fs, p, g, h), p, n).0; !HasPair(files, g) || !HasPair(files, h)
  {
    var staged := WithPairs(fs, p, g, h);
    if p.newKey == p.newCert {
      n := 0;
      assert !Has(staged, KeyOf(h));
    } else if p.newCert == p.key {
      n := 0;
      assert !Has(staged, KeyOf(g));
    } else if p.newKey == p.cert {
      n := 0;
      assert !Has(staged, CertOf(g));
    } else if p.oldKey == p.cert {
      n := 1;
      var one := Renamed(staged, p, 1).0;
      assert Renamed(staged, p, 0) == (staged, true);
      assert one == (staged - {p.key})[p.oldKey := KeyOf(g)];
      assert !Has(one, CertOf(g));
    } else {
      assert p.oldCert == p.key;
      n := 3;
      assert Renamed(staged, p, 0) == (staged, true);
      var one := (staged - {p.key})[p.oldKey := KeyOf(g)];
      assert Renamed(staged, p, 1) == (one, true);
      var two := (one - {p.cert})[p.oldCert := CertOf(g)];
      assert Renamed(staged, p, 2) == (two, true);
      var three := (two - {p.newKey})[p.key := KeyOf(h)];
      assert Renamed(staged, p, 3) == (three, true);
      assert !Has(three, CertOf(g));
    }
  }

  /** What an operator can check for one swap. */
  predicate SwapApart(key: Path, cert: Path, staging: string) {
    && !SameStem(key, cert)
    && key !in {WithSuffix(cert, staging), WithSuffix(cert, PREVIOUS)}
    && cert !in {WithSuffix(key, staging), WithSuffix(key, PREVIOUS)}
  }

  lemma SwapApartIsSix(key: Path, cert: Path, staging: string)
    requires staging == NEW || staging == RECOVERY
    ensures SwapApart(key, cert, staging) <==> SixFiles(SixOf(key, cert, staging))
  {
    SixDerive(key, cert, staging);
    DerivedNames(key, cert);
    var p := SixOf(key, cert, staging);
    var ps := [p.key, p.cert, p.newKey, p.newCert, p.oldKey, p.oldCert];
    if SixFiles(p) {
      assert ps[0] != ps[3] && ps[0] != ps[5] && ps[1] != ps[2] && ps[1] != ps[4] && ps[2] != ps[3];
    }
  }

  /** Whatever else is on disk, both pairs survive a death after any number of
      renames exactly when the six names are six files. */
  lemma SwapKeepsBothPairs(fs: Files, key: Path, cert: Path, staging: string, g: W.Gen, h: W.Gen)
    requires staging == NEW || staging == RECOVERY
    requires g != h && Foreign(fs, g) && Foreign(fs, h)
    ensures var p := SixOf(key, cert, staging);
            var staged := WithPairs(fs, p, g, h);
            (forall n: nat | n <= 4 ::
               HasPair(Renamed(staged, p, n).0, g) && HasPair(Renamed(staged, p, n).0, h))
            <==> SwapApart(key, cert, staging)
  {
    var p := SixOf(key, cert, staging);
    SwapApartIsSix(key, cert, staging);
    SixDerive(key, cert, staging);
    if SixFiles(p) {
      forall n: nat | n <= 4
        ensures HasPair(Renamed(WithPairs(fs, p, g, h), p, n).0, g)
        ensures HasPair(Renamed(WithPairs(fs, p, g, h), p, n).0, h)
      {
        WhereTheyAre(fs, p, g, h, n);
      }
    } else {
      var n := EqualNamesLose(fs, p, g, h);
    }
  }

  /** One stem for both names: staging the certificate overwrites the new key, the
      second rename overwrites the old one, and the fourth has nothing to move. */
  lemma OneStemLosesBothKeys(fs: Files, key: Path, cert: Path, staging: string, g: W.Gen, h: W.Gen)
    requires staging == NEW || staging == RECOVERY
    requires g != h && Foreign(fs, g) && Foreign(fs, h)
    requires SameStem(key, cert) && key != cert
    ensures var p := SixOf(key, cert, staging);
            var staged := WithPairs(fs, p, g, h);
            && !Has(staged, KeyOf(h))
            && Renamed(staged, p, 2).1 && !Has(Renamed(staged, p, 2).0, KeyOf(g))
            && Renamed(staged, p, 3).1 && Renamed(staged, p, 3).0[key] == CertOf(h)
            && !Renamed(staged, p, 4).1
  {
    var p := SixOf(key, cert, staging);
    var staged := WithPairs(fs, p, g, h);
    SixDerive(key, cert, staging);
    DerivedNames(key, cert);
    SharedNames(fs, p, g, h);
  }

  lemma SharedNames(fs: Files, p: Six, g: W.Gen, h: W.Gen)
    requires Derives(p) && p.newKey == p.newCert && p.key != p.cert
    requires p.key !in {p.newCert, p.oldCert} && p.cert !in {p.newKey, p.oldKey}
    requires g != h && Foreign(fs, g) && Foreign(fs, h)
    ensures var staged := WithPairs(fs, p, g, h);
            && !Has(staged, KeyOf(h))
            && Renamed(staged, p, 2).1 && !Has(Renamed(staged, p, 2).0, KeyOf(g))
            && Renamed(staged, p, 3).1 && p.key in Renamed(staged, p, 3).0
            && Renamed(staged, p, 3).0[p.key] == CertOf(h)
            && !Renamed(staged, p, 4).1
  {
    var staged := WithPairs(fs, p, g, h);
    assert Renamed(staged, p, 0) == (staged, true);
    var one := (staged - {p.key})[p.oldKey := KeyOf(g)];
    assert Renamed(staged, p, 1) == (one, true);
    var two := (one - {p.cert})[p.oldCert := CertOf(g)];
    assert Renamed(staged, p, 2) == (two, true);
    var three := (two - {p.newKey})[p.key := CertOf(h)];
    assert Renamed(staged, p, 3) == (three, true);
  }

  // ------------------------------------------------------------------ the settings

  lemma {:induction false} LastDotOf(base: string, ext: string)
    requires '.' !in ext
    ensures LastDot(base + "." + ext) == |base|
    decreases |ext|
  {
    var name := base + "." + ext;
    if ext != "" {
      assert name[..|name| - 1] == base + "." + ext[..|ext| - 1];
      LastDotOf(base, ext[..|ext| - 1]);
    }
  }

  lemma StemOf(base: string, ext: string)
    requires base != "" && ext != "" && '.' !in ext
    ensures Stem(base + "." + ext) == base
  {
    LastDotOf(base, ext);
    assert (base + "." + ext)[..|base|] == base;
  }

  /** What a usual name gives, and the names that have no suffix to replace. */
  lemma UsualNames(parent: string, base: string, ext: string)
    requires base != "" && ext != "" && '.' !in ext
    ensures var p := Path(parent, base + "." + ext);
            && WithSuffix(p, NEW) == Path(parent, base + ".pem.new")
            && WithSuffix(p, RECOVERY) == Path(parent, base + ".pem.recovery")
            && WithSuffix(p, PREVIOUS) == Path(parent, base + ".pem.previous")
    ensures Stem("." + ext) == "." + ext && Stem(base + ".") == base + "." && Stem(ext) == ext
  {
    StemOf(base, ext);
    LastDotOf("", ext);
    assert "" + "." + ext == "." + ext;
    LastDotOf(base, "");
    assert base + "." + "" == base + ".";
  }

  const SECRETS := "/s/secrets"

  /** Two ordinary settings that are one stem. */
  lemma KeyAndCrtShareAStem()
    ensures SameStem(Path(SECRETS, "relay" + "." + "key"), Path(SECRETS, "relay" + "." + "crt"))
    ensures !Apart(Path(SECRETS, "relay" + "." + "key"), Path(SECRETS, "relay" + "." + "crt"))
  {
    StemOf("relay", "key");
    StemOf("relay", "crt");
  }

  /** The names used when nothing is set are eight files. */
  lemma DefaultsAreApart(parent: string)
    ensures Apart(Path(parent, "mail_relay_client_key" + "." + "pem"),
                  Path(parent, "mail_relay_client_cert" + "." + "pem"))
  {
    var key := Path(parent, "mail_relay_client_key" + "." + "pem");
    var cert := Path(parent, "mail_relay_client_cert" + "." + "pem");
    StemOf("mail_relay_client_key", "pem");
    StemOf("mail_relay_client_cert", "pem");
    assert "mail_relay_client_key"[18] != "mail_relay_client_cert"[18];
    LastOf("mail_relay_client_key" + ".", "pem", "mail_relay_client_cert", NEW);
    LastOf("mail_relay_client_key" + ".", "pem", "mail_relay_client_cert", RECOVERY);
    LastOf("mail_relay_client_key" + ".", "pem", "mail_relay_client_cert", PREVIOUS);
    LastOf("mail_relay_client_cert" + ".", "pem", "mail_relay_client_key", NEW);
    LastOf("mail_relay_client_cert" + ".", "pem", "mail_relay_client_key", RECOVERY);
    LastOf("mail_relay_client_cert" + ".", "pem", "mail_relay_client_key", PREVIOUS);
  }

  // --------------------------------------------------------- the slots of RelayWorld

  function KeySlot(fs: Files, p: Path): W.Slot {
    if p !in fs then W.Absent else if fs[p].KeyOf? then W.Holds(fs[p].gen) else W.Partial
  }

  function CertSlot(fs: Files, p: Path): W.Slot {
    if p !in fs then W.Absent else if fs[p].CertOf? then W.Holds(fs[p].gen) else W.Partial
  }

  /** The eight slots read off the file system. */
  function View(fs: Files, key: Path, cert: Path): W.Disk {
    W.Disk(KeySlot(fs, key), CertSlot(fs, cert),
           KeySlot(fs, WithSuffix(key, NEW)), CertSlot(fs, WithSuffix(cert, NEW)),
           KeySlot(fs, WithSuffix(key, RECOVERY)), CertSlot(fs, WithSuffix(cert, RECOVERY)),
           KeySlot(fs, WithSuffix(key, PREVIOUS)), CertSlot(fs, WithSuffix(cert, PREVIOUS)))
  }

  function Suffix(a: W.Area): string
    requires !a.Live?
  {
    if a == W.New then NEW else RECOVERY
  }

  function KeyPath(key: Path, a: W.Area): Path {
    if a.Live? then key else WithSuffix(key, Suffix(a))
  }

  lemma NamesApart(key: Path, cert: Path)
    requires Apart(key, cert)
    ensures forall i, j | 0 <= i < j < 8 :: Names(key, cert)[i] != Names(key, cert)[j]
  {
    EightNames(key, cert);
  }

  /** With eight files, a rename moves slots as RelayWorld has it, for either staging. */
  lemma RenamesMoveSlots(fs: Files, key: Path, cert: Path, job: W.Job, n: nat)
    requires Apart(key, cert) && 1 <= n <= 4
    requires Rename(fs, SixOf(key, cert, Suffix(W.Staging(job))), n).Some?
    ensures View(Rename(fs, SixOf(key, cert, Suffix(W.Staging(job))), n).value, key, cert) ==
            W.SwapDisk(View(fs, key, cert), job, n)
  {
    NamesApart(key, cert);
    var ps := Names(key, cert);
    assert ps == [ps[0], ps[1], ps[2], ps[3], ps[4], ps[5], ps[6], ps[7]];
  }

  lemma KeyWritesSetSlots(fs: Files, key: Path, cert: Path, a: W.Area, c: Content)
    requires Apart(key, cert)
    ensures View(fs[KeyPath(key, a) := c], key, cert) ==
            W.SetKey(View(fs, key, cert), a, KeySlot(fs[KeyPath(key, a) := c], KeyPath(key, a)))
    ensures View(fs - {KeyPath(key, a)}, key, cert) == W.SetKey(View(fs, key, cert), a, W.Absent)
  {
    NamesApart(key, cert);
    var ps := Names(key, cert);
    assert ps == [ps[0], ps[1], ps[2], ps[3], ps[4], ps[5], ps[6], ps[7]];
  }

  lemma CertWritesSetSlots(fs: Files, key: Path, cert: Path, a: W.Area, c: Content)
    requires Apart(key, cert)
    ensures View(fs[KeyPath(cert, a) := c], key, cert) ==
            W.SetCert(View(fs, key, cert), a, CertSlot(fs[KeyPath(cert, a) := c], KeyPath(cert, a)))
    ensures View(fs - {KeyPath(cert, a)}, key, cert) == W.SetCert(View(fs, key, cert), a, W.Absent)
  {
    NamesApart(key, cert);
    var ps := Names(key, cert);
    assert ps == [ps[0], ps[1], ps[2], ps[3], ps[4], ps[5], ps[6], ps[7]];
  }

  /** And writing or removing one file changes its slot alone. */
  lemma WritesSetSlots(fs: Files, key: Path, cert: Path, a: W.Area, c: Content)
    requires Apart(key, cert)
    ensures View(fs[KeyPath(key, a) := c], key, cert) ==
            W.SetKey(View(fs, key, cert), a, KeySlot(fs[KeyPath(key, a) := c], KeyPath(key, a)))
    ensures View(fs[KeyPath(cert, a) := c], key, cert) ==
            W.SetCert(View(fs, key, cert), a, CertSlot(fs[KeyPath(cert, a) := c], KeyPath(cert, a)))
    ensures View(fs - {KeyPath(key, a)}, key, cert) == W.SetKey(View(fs, key, cert), a, W.Absent)
    ensures View(fs - {KeyPath(cert, a)}, key, cert) == W.SetCert(View(fs, key, cert), a, W.Absent)
  {
    KeyWritesSetSlots(fs, key, cert, a, c);
    CertWritesSetSlots(fs, key, cert, a, c);
  }
}
