// The permissions extractor's reading of retrieved Salesforce metadata:
// profiles, permission sets, permission set groups and muting permission
// sets, each parsed from its XML text by regular-expression scans.

module MetadataExtractor {
  import opened Common
  import opened XmlScan
  import opened XmlDoc
  import opened XmlRead
  import opened XmlRecord
  import opened XmlSections

  // ---------------------------------------------------------------------
  // Parsed records. A name the scan does not find is `None` (the source's
  // `undefined`).

  /** `objectName` is the source's `object` (a reserved word here). */
  datatype ObjectPermission = ObjectPermission(
    objectName: Option<string>, allowCreate: bool, allowRead: bool, allowEdit: bool,
    allowDelete: bool, modifyAllRecords: bool, viewAllRecords: bool)

  datatype FieldPermission = FieldPermission(field: Option<string>, editable: bool, readable: bool)

  datatype UserPermission = UserPermission(name: Option<string>, enabled: bool)

  datatype ClassAccess = ClassAccess(apexClass: Option<string>, enabled: bool)

  datatype PageAccess = PageAccess(apexPage: Option<string>, enabled: bool)

  datatype ProfileMetadata = ProfileMetadata(
    objectPermissions: seq<ObjectPermission>, fieldPermissions: seq<FieldPermission>,
    apexClassAccesses: seq<ClassAccess>, pageAccesses: seq<PageAccess>,
    userPermissions: seq<UserPermission>, isMuting: bool)

  // ---------------------------------------------------------------------
  // The scans

  /** `xml.match(/<tag>[\s\S]*?<\/tag>/g) || []` */
  function Scan(xml: string, tag: string): seq<string>
  {
    Blocks(xml, TagText(tag), TagText("/" + tag), 0)
  }

  /** `block.match(/<n>(.*?)<\/n>/)?.[1]` */
  function Capture(block: string, n: string): Option<string>
  {
    FirstInner(block, TagText(n), TagText("/" + n), 0)
  }

  /** `block.includes('<n>true</n>')` */
  function Flag(block: string, n: string): bool
  {
    Contains(block, FlagText(n))
  }

  function ParseObject(block: string): ObjectPermission
  {
    ObjectPermission(Capture(block, "object"), Flag(block, "allowCreate"), Flag(block, "allowRead"),
      Flag(block, "allowEdit"), Flag(block, "allowDelete"), Flag(block, "modifyAllRecords"),
      Flag(block, "viewAllRecords"))
  }

  function ParseField(block: string): FieldPermission
  {
    FieldPermission(Capture(block, "field"), Flag(block, "editable"), Flag(block, "readable"))
  }

  function ParseUser(block: string): UserPermission
  {
    UserPermission(Capture(block, "name"), Flag(block, "enabled"))
  }

  function ParseClass(block: string): ClassAccess
  {
    ClassAccess(Capture(block, "apexClass"), Flag(block, "enabled"))
  }

  function ParsePage(block: string): PageAccess
  {
    PageAccess(Capture(block, "apexPage"), Flag(block, "enabled"))
  }

  function Objects(xml: string): seq<ObjectPermission>
  {
    var bs := Scan(xml, "objectPermissions");
    seq(|bs|, i requires 0 <= i < |bs| => ParseObject(bs[i]))
  }

  function Fields(xml: string): seq<FieldPermission>
  {
    var bs := Scan(xml, "fieldPermissions");
    seq(|bs|, i requires 0 <= i < |bs| => ParseField(bs[i]))
  }

  function Users(xml: string): seq<UserPermission>
  {
    var bs := Scan(xml, "userPermissions");
    seq(|bs|, i requires 0 <= i < |bs| => ParseUser(bs[i]))
  }

  function Classes(xml: string): seq<ClassAccess>
  {
    var bs := Scan(xml, "classAccesses");
    seq(|bs|, i requires 0 <= i < |bs| => ParseClass(bs[i]))
  }

  function Pages(xml: string): seq<PageAccess>
  {
    var bs := Scan(xml, "pageAccesses");
    seq(|bs|, i requires 0 <= i < |bs| => ParsePage(bs[i]))
  }

  /** `parseProfileMetadata`: each kind of record from its own scan, in document order. */
  function ParseProfile(xml: string): ProfileMetadata
  {
    ProfileMetadata(Objects(xml), Fields(xml), Classes(xml), Pages(xml), Users(xml), false)
  }

  // ---------------------------------------------------------------------
  // Writing records as Salesforce writes them: fields in alphabetical
  // order, one per line, flags as `true`/`false`.

  function Bool(b: bool): string
  {
    if b then "true" else "false"
  }

  /** The fields of an object permission; `object` only when it has a name. */
  function ObjectFields(x: ObjectPermission): seq<Field>
  {
    var c, d, e := Field("allowCreate", Bool(x.allowCreate)), Field("allowDelete", Bool(x.allowDelete)), Field("allowEdit", Bool(x.allowEdit));
    var r, m, v := Field("allowRead", Bool(x.allowRead)), Field("modifyAllRecords", Bool(x.modifyAllRecords)), Field("viewAllRecords", Bool(x.viewAllRecords));
    if x.objectName.Some? then [c, d, e, r, m, Field("object", x.objectName.value), v] else [c, d, e, r, m, v]
  }

  /** A name the scans can read back: no '<' and no line break. */
  predicate NameOk(v: Option<string>)
  {
    v.Some? ==> '<' !in v.value && OnOneLine(v.value)
  }

  lemma {:induction false} BoolRead(b: bool)
    ensures Bool(b) == "true" <==> b
    ensures '<' !in Bool(b)
  {
  }

  lemma {:induction false} ObjectFieldsAt(x: ObjectPermission)
    ensures |ObjectFields(x)| == if x.objectName.Some? then 7 else 6
    ensures ObjectFields(x)[0] == Field("allowCreate", Bool(x.allowCreate))
    ensures ObjectFields(x)[1] == Field("allowDelete", Bool(x.allowDelete))
    ensures ObjectFields(x)[2] == Field("allowEdit", Bool(x.allowEdit))
    ensures ObjectFields(x)[3] == Field("allowRead", Bool(x.allowRead))
    ensures ObjectFields(x)[4] == Field("modifyAllRecords", Bool(x.modifyAllRecords))
    ensures x.objectName.Some? ==> ObjectFields(x)[5] == Field("object", x.objectName.value)
    ensures ObjectFields(x)[|ObjectFields(x)| - 1] == Field("viewAllRecords", Bool(x.viewAllRecords))
  {
  }

  /** The names an object permission is written with are plain. */
  lemma {:induction false} ObjectNames()
    ensures Plain("objectPermissions") && Plain("allowCreate") && Plain("allowDelete") && Plain("allowEdit")
    ensures Plain("allowRead") && Plain("modifyAllRecords") && Plain("object") && Plain("viewAllRecords")
  {
    AccessNames();
    assert Plain("objectPermissions") by { LettersPlain("objectPermissions"); }
    assert Plain("modifyAllRecords") by { LettersPlain("modifyAllRecords"); }
    assert Plain("object") by { LettersPlain("object"); }
    assert Plain("viewAllRecords") by { LettersPlain("viewAllRecords"); }
  }

  lemma {:induction false} AccessNames()
    ensures Plain("allowCreate") && Plain("allowDelete") && Plain("allowEdit") && Plain("allowRead")
  {
    assert Plain("allowCreate") by { LettersPlain("allowCreate"); }
    assert Plain("allowDelete") by { LettersPlain("allowDelete"); }
    assert Plain("allowEdit") by { LettersPlain("allowEdit"); }
    assert Plain("allowRead") by { LettersPlain("allowRead"); }
  }

  lemma {:induction false} ObjectFieldsDistinct(x: ObjectPermission)
    ensures Distinct(ObjectFields(x))
  {
  }

  lemma {:induction false} ObjectFieldOk(x: ObjectPermission, k: nat)
    requires NameOk(x.objectName) && k < |ObjectFields(x)|
    ensures FieldOk(ObjectFields(x)[k]) && ObjectFields(x)[k].name != "objectPermissions"
  {
    var fs := ObjectFields(x);
    ObjectNames();
    if k == 0 {
      BoolRead(x.allowCreate);
      assert fs[k] == Field("allowCreate", Bool(x.allowCreate));
    } else if k == 1 {
      BoolRead(x.allowDelete);
      assert fs[k] == Field("allowDelete", Bool(x.allowDelete));
    } else if k == 2 {
      BoolRead(x.allowEdit);
      assert fs[k] == Field("allowEdit", Bool(x.allowEdit));
    } else if k == 3 {
      BoolRead(x.allowRead);
      assert fs[k] == Field("allowRead", Bool(x.allowRead));
    } else if k == 4 {
      BoolRead(x.modifyAllRecords);
      assert fs[k] == Field("modifyAllRecords", Bool(x.modifyAllRecords));
    } else if k == |fs| - 1 {
      BoolRead(x.viewAllRecords);
      assert fs[k] == Field("viewAllRecords", Bool(x.viewAllRecords));
    } else {
      assert fs[k] == Field("object", x.objectName.value);
    }
  }

  lemma {:induction false} ObjectFieldsOk(w: string, x: ObjectPermission)
    requires '<' !in w && NameOk(x.objectName)
    ensures RecordOk("objectPermissions", w, ObjectFields(x)) && Distinct(ObjectFields(x))
  {
    ObjectFieldsDistinct(x);
    ObjectNames();
    forall k | 0 <= k < |ObjectFields(x)|
      ensures FieldOk(ObjectFields(x)[k]) && ObjectFields(x)[k].name != "objectPermissions"
    {
      ObjectFieldOk(x, k);
    }
  }

  /** Each field of an object permission reads back as a flag. */
  lemma {:induction false} ObjectFlagAt(w: string, x: ObjectPermission, k: nat)
    requires '<' !in w && NameOk(x.objectName) && k < |ObjectFields(x)|
    ensures Flag(Doc(Element("objectPermissions", w, ObjectFields(x))), ObjectFields(x)[k].name)
        <==> ObjectFields(x)[k].value == "true"
  {
    var fs := ObjectFields(x);
    ObjectFieldsOk(w, x);
    FlagOf("objectPermissions", w, fs, k, fs[k].name, fs[k].value);
  }

  /** The object's name reads back as written, and as `None` when it is not written. */
  lemma {:induction false} ObjectNameRead(w: string, x: ObjectPermission)
    requires '<' !in w && NameOk(x.objectName)
    ensures Capture(Doc(Element("objectPermissions", w, ObjectFields(x))), "object") == x.objectName
  {
    var o, fs := "objectPermissions", ObjectFields(x);
    ObjectFieldsOk(w, x);
    if x.objectName.Some? {
      CaptureOf(o, w, fs, 5, "object", x.objectName.value);
    } else {
      ObjectNames();
      FieldAbsent(o, w, fs, "object");
    }
  }

  /** The four access flags of an object permission read back as written. */
  lemma {:induction false} ObjectAccessRead(w: string, x: ObjectPermission)
    requires '<' !in w && NameOk(x.objectName)
    ensures var b := Doc(Element("objectPermissions", w, ObjectFields(x)));
      Flag(b, "allowCreate") == x.allowCreate && Flag(b, "allowDelete") == x.allowDelete &&
      Flag(b, "allowEdit") == x.allowEdit && Flag(b, "allowRead") == x.allowRead
  {
    ObjectFieldsAt(x);
    BoolRead(x.allowCreate);
    BoolRead(x.allowDelete);
    BoolRead(x.allowEdit);
    BoolRead(x.allowRead);
    ObjectFlagAt(w, x, 0);
    ObjectFlagAt(w, x, 1);
    ObjectFlagAt(w, x, 2);
    ObjectFlagAt(w, x, 3);
  }

  /** Reading an object permission back from its element. */
  lemma {:induction false} ObjectRead(w: string, x: ObjectPermission)
    requires '<' !in w && NameOk(x.objectName)
    ensures ParseObject(Doc(Element("objectPermissions", w, ObjectFields(x)))) == x
  {
    var b := Doc(Element("objectPermissions", w, ObjectFields(x)));
    ObjectAccessRead(w, x);
    assert Flag(b, "modifyAllRecords") == x.modifyAllRecords && Flag(b, "viewAllRecords") == x.viewAllRecords by {
      ObjectFieldsAt(x);
      BoolRead(x.modifyAllRecords);
      BoolRead(x.viewAllRecords);
      ObjectFlagAt(w, x, 4);
      ObjectFlagAt(w, x, |ObjectFields(x)| - 1);
    }
    ObjectNameRead(w, x);
  }

  // ---------------------------------------------------------------------
  // Records of one name and one flag: user permissions, Apex class and
  // Visualforce page accesses.

  /** The name field, when there is a name. */
  function Named(n: string, v: Option<string>): seq<Field>
  {
    if v.Some? then [Field(n, v.value)] else []
  }

  /** A name field `nk` and a flag field `fk`, in the order their names sort. */
  function PairFields(nk: string, v: Option<string>, fk: string, e: bool, nameFirst: bool): seq<Field>
  {
    if nameFirst then Named(nk, v) + [Field(fk, Bool(e))] else [Field(fk, Bool(e))] + Named(nk, v)
  }

  /** Which names a pair record may be written with. */
  predicate PairNamesOk(o: string, nk: string, fk: string)
  {
    Plain(o) && Plain(nk) && Plain(fk) && nk != fk && nk != o && fk != o
  }

  lemma {:induction false} PairFieldsOk(o: string, w: string, nk: string, v: Option<string>, fk: string, e: bool, nameFirst: bool)
    requires PairNamesOk(o, nk, fk) && '<' !in w && NameOk(v)
    ensures RecordOk(o, w, PairFields(nk, v, fk, e, nameFirst)) && Distinct(PairFields(nk, v, fk, e, nameFirst))
  {
    BoolRead(e);
  }

  /** The name and the flag of a pair record read back as written. */
  lemma {:induction false} PairRead(o: string, w: string, nk: string, v: Option<string>, fk: string, e: bool, nameFirst: bool)
    requires PairNamesOk(o, nk, fk) && '<' !in w && NameOk(v)
    ensures var b := Doc(Element(o, w, PairFields(nk, v, fk, e, nameFirst)));
      Capture(b, nk) == v && Flag(b, fk) == e
  {
    var fs := PairFields(nk, v, fk, e, nameFirst);
    PairFieldsOk(o, w, nk, v, fk, e, nameFirst);
    BoolRead(e);
    var f := if nameFirst then |fs| - 1 else 0;
    FlagOf(o, w, fs, f, fk, Bool(e));
    if v.Some? {
      CaptureOf(o, w, fs, |fs| - 1 - f, nk, v.value);
    } else {
      FieldAbsent(o, w, fs, nk);
    }
  }

  function UserFields(x: UserPermission): seq<Field>
  {
    PairFields("name", x.name, "enabled", x.enabled, false)
  }

  function ClassFields(x: ClassAccess): seq<Field>
  {
    PairFields("apexClass", x.apexClass, "enabled", x.enabled, true)
  }

  function PageFields(x: PageAccess): seq<Field>
  {
    PairFields("apexPage", x.apexPage, "enabled", x.enabled, true)
  }

  lemma {:induction false} UserNames()
    ensures PairNamesOk("userPermissions", "name", "enabled")
  {
    assert Plain("userPermissions") by { LettersPlain("userPermissions"); }
    assert Plain("name") by { LettersPlain("name"); }
    assert Plain("enabled") by { LettersPlain("enabled"); }
  }

  lemma {:induction false} ClassNames()
    ensures PairNamesOk("classAccesses", "apexClass", "enabled")
  {
    assert Plain("classAccesses") by { LettersPlain("classAccesses"); }
    assert Plain("apexClass") by { LettersPlain("apexClass"); }
    assert Plain("enabled") by { LettersPlain("enabled"); }
  }

  lemma {:induction false} PageNames()
    ensures PairNamesOk("pageAccesses", "apexPage", "enabled")
  {
    assert Plain("pageAccesses") by { LettersPlain("pageAccesses"); }
    assert Plain("apexPage") by { LettersPlain("apexPage"); }
    assert Plain("enabled") by { LettersPlain("enabled"); }
  }

  /** Reading a user permission back from its element. */
  lemma {:induction false} UserRead(w: string, x: UserPermission)
    requires '<' !in w && NameOk(x.name)
    ensures ParseUser(Doc(Element("userPermissions", w, UserFields(x)))) == x
  {
    UserNames();
    PairRead("userPermissions", w, "name", x.name, "enabled", x.enabled, false);
  }

  /** Reading an Apex class access back from its element. */
  lemma {:induction false} ClassRead(w: string, x: ClassAccess)
    requires '<' !in w && NameOk(x.apexClass)
    ensures ParseClass(Doc(Element("classAccesses", w, ClassFields(x)))) == x
  {
    ClassNames();
    PairRead("classAccesses", w, "apexClass", x.apexClass, "enabled", x.enabled, true);
  }

  /** Reading a page access back from its element. */
  lemma {:induction false} PageRead(w: string, x: PageAccess)
    requires '<' !in w && NameOk(x.apexPage)
    ensures ParsePage(Doc(Element("pageAccesses", w, PageFields(x)))) == x
  {
    PageNames();
    PairRead("pageAccesses", w, "apexPage", x.apexPage, "enabled", x.enabled, true);
  }

  // ---------------------------------------------------------------------
  // Field permissions: `editable`, `field`, `readable`.

  function FieldFields(x: FieldPermission): seq<Field>
  {
    [Field("editable", Bool(x.editable))] + Named("field", x.field) + [Field("readable", Bool(x.readable))]
  }

  lemma {:induction false} FieldNames()
    ensures Plain("fieldPermissions") && Plain("editable") && Plain("field") && Plain("readable")
  {
    assert Plain("fieldPermissions") by { LettersPlain("fieldPermissions"); }
    assert Plain("editable") by { LettersPlain("editable"); }
    assert Plain("field") by { LettersPlain("field"); }
    assert Plain("readable") by { LettersPlain("readable"); }
  }

  lemma {:induction false} FieldFieldsOk(w: string, x: FieldPermission)
    requires '<' !in w && NameOk(x.field)
    ensures RecordOk("fieldPermissions", w, FieldFields(x)) && Distinct(FieldFields(x))
  {
    FieldNames();
    BoolRead(x.editable);
    BoolRead(x.readable);
  }

  /** Reading a field permission back from its element. */
  lemma {:induction false} FieldPermissionRead(w: string, x: FieldPermission)
    requires '<' !in w && NameOk(x.field)
    ensures ParseField(Doc(Element("fieldPermissions", w, FieldFields(x)))) == x
  {
    var o, fs := "fieldPermissions", FieldFields(x);
    FieldFieldsOk(w, x);
    BoolRead(x.editable);
    BoolRead(x.readable);
    FlagOf(o, w, fs, 0, "editable", Bool(x.editable));
    FlagOf(o, w, fs, |fs| - 1, "readable", Bool(x.readable));
    if x.field.Some? {
      CaptureOf(o, w, fs, 1, "field", x.field.value);
    } else {
      FieldNames();
      FieldAbsent(o, w, fs, "field");
    }
  }

  // ---------------------------------------------------------------------
  // A whole profile written as Salesforce retrieves it: one section per
  // kind of record, the sections in alphabetical order of their tags.

  function ObjectRecords(xs: seq<ObjectPermission>): (r: seq<seq<Field>>)
    ensures |r| == |xs|
  {
    seq(|xs|, i requires 0 <= i < |xs| => ObjectFields(xs[i]))
  }

  function FieldRecords(xs: seq<FieldPermission>): (r: seq<seq<Field>>)
    ensures |r| == |xs|
  {
    seq(|xs|, i requires 0 <= i < |xs| => FieldFields(xs[i]))
  }

  function UserRecords(xs: seq<UserPermission>): (r: seq<seq<Field>>)
    ensures |r| == |xs|
  {
    seq(|xs|, i requires 0 <= i < |xs| => UserFields(xs[i]))
  }

  function ClassRecords(xs: seq<ClassAccess>): (r: seq<seq<Field>>)
    ensures |r| == |xs|
  {
    seq(|xs|, i requires 0 <= i < |xs| => ClassFields(xs[i]))
  }

  function PageRecords(xs: seq<PageAccess>): (r: seq<seq<Field>>)
    ensures |r| == |xs|
  {
    seq(|xs|, i requires 0 <= i < |xs| => PageFields(xs[i]))
  }

  const SectionTags: set<string> := {"classAccesses", "fieldPermissions", "objectPermissions", "pageAccesses", "userPermissions"}

  function ProfileSections(p: ProfileMetadata): seq<Section>
  {
    [Section("classAccesses", ClassRecords(p.apexClassAccesses)),
     Section("fieldPermissions", FieldRecords(p.fieldPermissions)),
     Section("objectPermissions", ObjectRecords(p.objectPermissions)),
     Section("pageAccesses", PageRecords(p.pageAccesses)),
     Section("userPermissions", UserRecords(p.userPermissions))]
  }

  /** The profile's XML text under the root element `root`. */
  function ProfileXml(root: string, w: string, p: ProfileMetadata): string
  {
    Doc(Document(root, w, ProfileSections(p)))
  }

  /** The names in a profile can be read back: each free of '<' and of line breaks. */
  predicate NamesOk(p: ProfileMetadata)
  {
    (forall i :: 0 <= i < |p.objectPermissions| ==> NameOk(p.objectPermissions[i].objectName)) &&
    (forall i :: 0 <= i < |p.fieldPermissions| ==> NameOk(p.fieldPermissions[i].field)) &&
    (forall i :: 0 <= i < |p.userPermissions| ==> NameOk(p.userPermissions[i].name)) &&
    (forall i :: 0 <= i < |p.apexClassAccesses| ==> NameOk(p.apexClassAccesses[i].apexClass)) &&
    (forall i :: 0 <= i < |p.pageAccesses| ==> NameOk(p.pageAccesses[i].apexPage))
  }

  /** What writing a profile needs: a plain root tag other than the section tags, blank space free of '<', readable names. */
  predicate ProfileOk(root: string, w: string, p: ProfileMetadata)
  {
    Plain(root) && root !in SectionTags && '<' !in w && NamesOk(p)
  }

  lemma {:induction false} ObjectRecordsOk(w: string, xs: seq<ObjectPermission>)
    requires '<' !in w && forall i :: 0 <= i < |xs| ==> NameOk(xs[i].objectName)
    ensures RecordsOk("objectPermissions", w, ObjectRecords(xs))
  {
    forall i | 0 <= i < |xs| ensures RecordOk("objectPermissions", w, ObjectRecords(xs)[i]) {
      ObjectFieldsOk(w, xs[i]);
    }
  }

  lemma {:induction false} FieldRecordsOk(w: string, xs: seq<FieldPermission>)
    requires '<' !in w && forall i :: 0 <= i < |xs| ==> NameOk(xs[i].field)
    ensures RecordsOk("fieldPermissions", w, FieldRecords(xs))
  {
    forall i | 0 <= i < |xs| ensures RecordOk("fieldPermissions", w, FieldRecords(xs)[i]) {
      FieldFieldsOk(w, xs[i]);
    }
  }

  lemma {:induction false} UserRecordsOk(w: string, xs: seq<UserPermission>)
    requires '<' !in w && forall i :: 0 <= i < |xs| ==> NameOk(xs[i].name)
    ensures RecordsOk("userPermissions", w, UserRecords(xs))
  {
    UserNames();
    forall i | 0 <= i < |xs| ensures RecordOk("userPermissions", w, UserRecords(xs)[i]) {
      PairFieldsOk("userPermissions", w, "name", xs[i].name, "enabled", xs[i].enabled, false);
    }
  }

  lemma {:induction false} ClassRecordsOk(w: string, xs: seq<ClassAccess>)
    requires '<' !in w && forall i :: 0 <= i < |xs| ==> NameOk(xs[i].apexClass)
    ensures RecordsOk("classAccesses", w, ClassRecords(xs))
  {
    ClassNames();
    forall i | 0 <= i < |xs| ensures RecordOk("classAccesses", w, ClassRecords(xs)[i]) {
      PairFieldsOk("classAccesses", w, "apexClass", xs[i].apexClass, "enabled", xs[i].enabled, true);
    }
  }

  lemma {:induction false} PageRecordsOk(w: string, xs: seq<PageAccess>)
    requires '<' !in w && forall i :: 0 <= i < |xs| ==> NameOk(xs[i].apexPage)
    ensures RecordsOk("pageAccesses", w, PageRecords(xs))
  {
    PageNames();
    forall i | 0 <= i < |xs| ensures RecordOk("pageAccesses", w, PageRecords(xs)[i]) {
      PairFieldsOk("pageAccesses", w, "apexPage", xs[i].apexPage, "enabled", xs[i].enabled, true);
    }
  }

  /** A profile that may be written gives a document the scans can read. */
  lemma {:induction false} ProfileDocumentOk(root: string, w: string, p: ProfileMetadata)
    requires ProfileOk(root, w, p)
    ensures DocumentOk(root, w, ProfileSections(p))
  {
    var secs := ProfileSections(p);
    ObjectRecordsOk(w, p.objectPermissions);
    FieldRecordsOk(w, p.fieldPermissions);
    UserRecordsOk(w, p.userPermissions);
    ClassRecordsOk(w, p.apexClassAccesses);
    PageRecordsOk(w, p.pageAccesses);
    assert secs[0].records == ClassRecords(p.apexClassAccesses);
    assert secs[4].records == UserRecords(p.userPermissions);
  }

  /** No field of an object permission is named like a section. */
  lemma {:induction false} ObjectRecordsFree(xs: seq<ObjectPermission>, t: string)
    requires t in SectionTags
    ensures RecordsFree(ObjectRecords(xs), t)
  {
    forall i, k | 0 <= i < |xs| && 0 <= k < |ObjectFields(xs[i])| ensures ObjectFields(xs[i])[k].name != t {
      ObjectFieldsAt(xs[i]);
    }
  }

  lemma {:induction false} FieldRecordsFree(xs: seq<FieldPermission>, t: string)
    requires t in SectionTags
    ensures RecordsFree(FieldRecords(xs), t)
  {
  }

  /** Each field of a pair record is named `nk` or `fk`. */
  lemma {:induction false} PairNames(nk: string, v: Option<string>, fk: string, e: bool, nameFirst: bool, k: nat)
    requires k < |PairFields(nk, v, fk, e, nameFirst)|
    ensures PairFields(nk, v, fk, e, nameFirst)[k].name in {nk, fk}
  {
  }

  lemma {:induction false} UserRecordsFree(xs: seq<UserPermission>, t: string)
    requires t in SectionTags
    ensures RecordsFree(UserRecords(xs), t)
  {
    forall i, k | 0 <= i < |xs| && 0 <= k < |UserFields(xs[i])| ensures UserFields(xs[i])[k].name != t {
      PairNames("name", xs[i].name, "enabled", xs[i].enabled, false, k);
    }
  }

  lemma {:induction false} ClassRecordsFree(xs: seq<ClassAccess>, t: string)
    requires t in SectionTags
    ensures RecordsFree(ClassRecords(xs), t)
  {
    forall i, k | 0 <= i < |xs| && 0 <= k < |ClassFields(xs[i])| ensures ClassFields(xs[i])[k].name != t {
      PairNames("apexClass", xs[i].apexClass, "enabled", xs[i].enabled, true, k);
    }
  }

  lemma {:induction false} PageRecordsFree(xs: seq<PageAccess>, t: string)
    requires t in SectionTags
    ensures RecordsFree(PageRecords(xs), t)
  {
    forall i, k | 0 <= i < |xs| && 0 <= k < |PageFields(xs[i])| ensures PageFields(xs[i])[k].name != t {
      PairNames("apexPage", xs[i].apexPage, "enabled", xs[i].enabled, true, k);
    }
  }

  lemma {:induction false} SectionTagsPlain()
    ensures forall t :: t in SectionTags ==> Plain(t)
  {
    ObjectNames();
    FieldNames();
    UserNames();
    ClassNames();
    PageNames();
  }

  /** Each section of a written profile can be read on its own. */
  lemma {:induction false} ProfileReadable(root: string, w: string, p: ProfileMetadata, j: nat)
    requires ProfileOk(root, w, p) && j < 5
    ensures Readable(root, ProfileSections(p), j)
  {
    var secs := ProfileSections(p);
    var t := secs[j].tag;
    assert t in SectionTags;
    SectionTagsPlain();
    ObjectRecordsFree(p.objectPermissions, t);
    FieldRecordsFree(p.fieldPermissions, t);
    UserRecordsFree(p.userPermissions, t);
    ClassRecordsFree(p.apexClassAccesses, t);
    PageRecordsFree(p.pageAccesses, t);
    ReadableOf(root, secs, j);
  }

  /** Scanning a written profile for a section's tag returns that section's records. */
  lemma {:induction false} ProfileScan(root: string, w: string, p: ProfileMetadata, j: nat, o: string, rs: seq<seq<Field>>)
    requires ProfileOk(root, w, p) && j < 5 && ProfileSections(p)[j] == Section(o, rs)
    ensures Scan(ProfileXml(root, w, p), o) == Docs(Bodies(o, w, rs))
  {
    ProfileDocumentOk(root, w, p);
    ProfileReadable(root, w, p, j);
    ReadSection(root, w, ProfileSections(p), j);
  }

  lemma {:induction false} ObjectsRead(root: string, w: string, p: ProfileMetadata)
    requires ProfileOk(root, w, p)
    ensures Objects(ProfileXml(root, w, p)) == p.objectPermissions
  {
    var o, xs := "objectPermissions", p.objectPermissions;
    ProfileScan(root, w, p, 2, o, ObjectRecords(xs));
    var bs := Scan(ProfileXml(root, w, p), o);
    forall i | 0 <= i < |xs| ensures ParseObject(bs[i]) == xs[i] {
      BodiesAt(o, w, ObjectRecords(xs), i);
      ObjectRead(w, xs[i]);
    }
  }

  lemma {:induction false} FieldsRead(root: string, w: string, p: ProfileMetadata)
    requires ProfileOk(root, w, p)
    ensures Fields(ProfileXml(root, w, p)) == p.fieldPermissions
  {
    var o, xs := "fieldPermissions", p.fieldPermissions;
    ProfileScan(root, w, p, 1, o, FieldRecords(xs));
    var bs := Scan(ProfileXml(root, w, p), o);
    forall i | 0 <= i < |xs| ensures ParseField(bs[i]) == xs[i] {
      BodiesAt(o, w, FieldRecords(xs), i);
      FieldPermissionRead(w, xs[i]);
    }
  }

  lemma {:induction false} ClassesRead(root: string, w: string, p: ProfileMetadata)
    requires ProfileOk(root, w, p)
    ensures Classes(ProfileXml(root, w, p)) == p.apexClassAccesses
  {
    var o, xs := "classAccesses", p.apexClassAccesses;
    ProfileScan(root, w, p, 0, o, ClassRecords(xs));
    var bs := Scan(ProfileXml(root, w, p), o);
    forall i | 0 <= i < |xs| ensures ParseClass(bs[i]) == xs[i] {
      BodiesAt(o, w, ClassRecords(xs), i);
      ClassRead(w, xs[i]);
    }
  }

  lemma {:induction false} PagesRead(root: string, w: string, p: ProfileMetadata)
    requires ProfileOk(root, w, p)
    ensures Pages(ProfileXml(root, w, p)) == p.pageAccesses
  {
    var o, xs := "pageAccesses", p.pageAccesses;
    ProfileScan(root, w, p, 3, o, PageRecords(xs));
    var bs := Scan(ProfileXml(root, w, p), o);
    forall i | 0 <= i < |xs| ensures ParsePage(bs[i]) == xs[i] {
      BodiesAt(o, w, PageRecords(xs), i);
      PageRead(w, xs[i]);
    }
  }

  lemma {:induction false} UsersRead(root: string, w: string, p: ProfileMetadata)
    requires ProfileOk(root, w, p)
    ensures Users(ProfileXml(root, w, p)) == p.userPermissions
  {
    var o, xs := "userPermissions", p.userPermissions;
    ProfileScan(root, w, p, 4, o, UserRecords(xs));
    var bs := Scan(ProfileXml(root, w, p), o);
    forall i | 0 <= i < |xs| ensures ParseUser(bs[i]) == xs[i] {
      BodiesAt(o, w, UserRecords(xs), i);
      UserRead(w, xs[i]);
    }
  }

  /**
   * Parsing the XML of a profile gives back every record of the profile,
   * in order: the extractor loses nothing Salesforce writes in this form.
   */
  lemma {:induction false} ProfileRoundTrip(root: string, w: string, p: ProfileMetadata)
    requires ProfileOk(root, w, p) && !p.isMuting
    ensures ParseProfile(ProfileXml(root, w, p)) == p
  {
    ObjectsRead(root, w, p);
    FieldsRead(root, w, p);
    ClassesRead(root, w, p);
    PagesRead(root, w, p);
    UsersRead(root, w, p);
  }

  // ---------------------------------------------------------------------
  // Permission sets, muting permission sets and permission set groups

  /** `parsePermissionSetMetadata` reads a permission set as a profile. */
  function ParsePermissionSet(xml: string): ProfileMetadata
  {
    ParseProfile(xml)
  }

  /** `parseMutingPermissionSetMetadata`: the records of a profile, marked as muting. */
  function ParseMuting(xml: string): (r: ProfileMetadata)
    ensures r.isMuting
    ensures r.(isMuting := false) == ParseProfile(xml)
  {
    ParseProfile(xml).(isMuting := true)
  }

  /** A permission set reads back as written. */
  lemma {:induction false} PermissionSetRoundTrip(root: string, w: string, p: ProfileMetadata)
    requires ProfileOk(root, w, p) && !p.isMuting
    ensures ParsePermissionSet(ProfileXml(root, w, p)) == p
  {
    ProfileRoundTrip(root, w, p);
  }

  /** A muting permission set reads back as written, marked as muting. */
  lemma {:induction false} MutingRoundTrip(root: string, w: string, p: ProfileMetadata)
    requires ProfileOk(root, w, p) && p.isMuting
    ensures ParseMuting(ProfileXml(root, w, p)) == p
  {
    ProfileRoundTrip(root, w, p.(isMuting := false));
    assert ProfileXml(root, w, p.(isMuting := false)) == ProfileXml(root, w, p);
  }

  datatype GroupMetadata = GroupMetadata(permissionSets: seq<string>, mutingPermissionSets: seq<string>, description: string)

  /** `xml.match(/<n>([^<]+)<\/n>/g)`, each match with its tags replaced away; none gives `[]`. */
  function Names(xml: string, n: string): seq<string>
  {
    TextRuns(xml, TagText(n), TagText("/" + n), 0)
  }

  /** `xml.match(/<n>([^<]*)<\/n>/)?.[1]` */
  function FirstText(xml: string, n: string): Option<string>
  {
    FirstRun(xml, TagText(n), TagText("/" + n), 0)
  }

  /** `parsePermissionSetGroupMetadata`: the permission sets and muting permission sets a group names, and its description (`''` when absent). */
  function ParseGroup(xml: string): GroupMetadata
  {
    var d := FirstText(xml, "description");
    GroupMetadata(Names(xml, "permissionSets"), Names(xml, "mutingPermissionSets"), if d.Some? then d.value else "")
  }

  /** A description is written only when it is not empty. */
  function DescriptionPieces(w: string, d: string): seq<Piece>
  {
    Runs(w, "description", if d == [] then [] else [d])
  }

  /** A group as Salesforce writes it: description, muting permission sets, permission sets. */
  function GroupPieces(root: string, w: string, g: GroupMetadata): seq<Piece>
  {
    [Tag(root)] + DescriptionPieces(w, g.description) + Runs(w, "mutingPermissionSets", g.mutingPermissionSets)
      + Runs(w, "permissionSets", g.permissionSets) + [Text(w), Tag("/" + root)]
  }

  function GroupXml(root: string, w: string, g: GroupMetadata): string
  {
    Doc(GroupPieces(root, w, g))
  }

  /** Names a group may hold: not empty and free of '<'. */
  predicate RunNamesOk(xs: seq<string>)
  {
    forall i :: 0 <= i < |xs| ==> xs[i] != [] && '<' !in xs[i]
  }

  predicate GroupOk(root: string, w: string, g: GroupMetadata)
  {
    Plain(root) && root != "description" && root != "mutingPermissionSets" && root != "permissionSets" &&
    '<' !in w && '<' !in g.description && RunNamesOk(g.permissionSets) && RunNamesOk(g.mutingPermissionSets)
  }

  lemma {:induction false} GroupNames()
    ensures Plain("description") && Plain("mutingPermissionSets") && Plain("permissionSets")
    ensures IsName("/description") && IsName("/mutingPermissionSets") && IsName("/permissionSets")
  {
    DescriptionName();
    MutingName();
    PermissionSetsName();
  }

  lemma {:induction false} DescriptionName()
    ensures Plain("description") && IsName("/description")
  {
    LettersPlain("description");
    ClosingName("description");
  }

  lemma {:induction false} MutingName()
    ensures Plain("mutingPermissionSets") && IsName("/mutingPermissionSets")
  {
    LettersPlain("mutingPermissionSets");
    ClosingName("mutingPermissionSets");
  }

  lemma {:induction false} PermissionSetsName()
    ensures Plain("permissionSets") && IsName("/permissionSets")
  {
    LettersPlain("permissionSets");
    ClosingName("permissionSets");
  }

  lemma {:induction false} GroupWellFormed(root: string, w: string, g: GroupMetadata)
    requires GroupOk(root, w, g)
    ensures WellFormed(GroupPieces(root, w, g), 0, |GroupPieces(root, w, g)|)
  {
    var A, T := [Tag(root)], [Text(w), Tag("/" + root)];
    var D := DescriptionPieces(w, g.description);
    var M, P := Runs(w, "mutingPermissionSets", g.mutingPermissionSets), Runs(w, "permissionSets", g.permissionSets);
    GroupNames();
    ClosingName(root);
    RunsOk(w, "description", if g.description == [] then [] else [g.description]);
    RunsOk(w, "mutingPermissionSets", g.mutingPermissionSets);
    RunsOk(w, "permissionSets", g.permissionSets);
    assert WellFormed(A, 0, |A|) && WellFormed(T, 0, |T|) by {
      WellFormedIff(A, 0, |A|);
      WellFormedIff(T, 0, |T|);
    }
    WellFormedConcat(A, D);
    WellFormedConcat(A + D, M);
    WellFormedConcat(A + D + M, P);
    WellFormedConcat(A + D + M + P, T);
  }

  /** Neither the root tags nor the description hold the tag `n` of a list of names. */
  lemma {:induction false} GroupFree(root: string, w: string, g: GroupMetadata, n: string)
    requires GroupOk(root, w, g) && (n == "mutingPermissionSets" || n == "permissionSets" || n == "description")
    ensures NoTag([Tag(root)], 0, 1, n) && NoTag([Text(w), Tag("/" + root)], 0, 2, n)
    ensures n != "description" ==> NoTag(DescriptionPieces(w, g.description), 0, |DescriptionPieces(w, g.description)|, n)
    ensures n != "mutingPermissionSets" ==> NoTag(Runs(w, "mutingPermissionSets", g.mutingPermissionSets), 0, |Runs(w, "mutingPermissionSets", g.mutingPermissionSets)|, n)
    ensures n != "permissionSets" ==> NoTag(Runs(w, "permissionSets", g.permissionSets), 0, |Runs(w, "permissionSets", g.permissionSets)|, n)
  {
    assert "/" + root != n by {
      assert ("/" + root)[0] == '/' && n[0] != '/';
    }
    NoTagIff([Tag(root)], 0, 1, n);
    NoTagIff([Text(w), Tag("/" + root)], 0, 2, n);
    if n != "description" {
      assert n != "/description";
      RunsFree(w, "description", if g.description == [] then [] else [g.description], n);
    }
    if n != "mutingPermissionSets" {
      assert n != "/mutingPermissionSets";
      RunsFree(w, "mutingPermissionSets", g.mutingPermissionSets, n);
    }
    if n != "permissionSets" {
      assert n != "/permissionSets";
      RunsFree(w, "permissionSets", g.permissionSets, n);
    }
  }

  lemma {:induction false} GroupPermissionSetsRead(root: string, w: string, g: GroupMetadata)
    requires GroupOk(root, w, g)
    ensures Names(GroupXml(root, w, g), "permissionSets") == g.permissionSets
  {
    var n := "permissionSets";
    var A, T := [Tag(root)], [Text(w), Tag("/" + root)];
    var D := DescriptionPieces(w, g.description);
    var M, P := Runs(w, "mutingPermissionSets", g.mutingPermissionSets), Runs(w, n, g.permissionSets);
    var ps := GroupPieces(root, w, g);
    GroupNames();
    GroupWellFormed(root, w, g);
    GroupFree(root, w, g, n);
    NoTagAppend(A, D, n);
    NoTagAppend(A + D, M, n);
    NoTagAround(A + D + M, P, T, n);
    PlacedMid(A + D + M, P, T);
    assert Off(ps, 0) == 0;
    TextRunsOf(ps, 0, |A + D + M|, |A + D + M + P|, w, n, g.permissionSets);
  }

  lemma {:induction false} GroupMutingRead(root: string, w: string, g: GroupMetadata)
    requires GroupOk(root, w, g)
    ensures Names(GroupXml(root, w, g), "mutingPermissionSets") == g.mutingPermissionSets
  {
    var n := "mutingPermissionSets";
    var A, T := [Tag(root)], [Text(w), Tag("/" + root)];
    var D := DescriptionPieces(w, g.description);
    var M, P := Runs(w, n, g.mutingPermissionSets), Runs(w, "permissionSets", g.permissionSets);
    var ps := GroupPieces(root, w, g);
    assert ps == A + D + M + (P + T);
    GroupNames();
    GroupWellFormed(root, w, g);
    GroupFree(root, w, g, n);
    NoTagAppend(A, D, n);
    NoTagAppend(P, T, n);
    NoTagAround(A + D, M, P + T, n);
    PlacedMid(A + D, M, P + T);
    assert Off(ps, 0) == 0;
    TextRunsOf(ps, 0, |A + D|, |A + D + M|, w, n, g.mutingPermissionSets);
  }

  /** With no description written, the scan for one finds nothing. */
  lemma {:induction false} DescriptionAbsent(root: string, w: string, g: GroupMetadata)
    requires GroupOk(root, w, g) && g.description == []
    ensures FirstText(GroupXml(root, w, g), "description") == None
  {
    var n := "description";
    var A, T := [Tag(root)], [Text(w), Tag("/" + root)];
    var D := DescriptionPieces(w, g.description);
    var M, P := Runs(w, "mutingPermissionSets", g.mutingPermissionSets), Runs(w, "permissionSets", g.permissionSets);
    var ps := GroupPieces(root, w, g);
    GroupNames();
    GroupWellFormed(root, w, g);
    GroupFree(root, w, g, n);
    assert D == [];
    NoTagAppend(A, M, n);
    NoTagAppend(A + M, P, n);
    NoTagAppend(A + M + P, T, n);
    assert ps == A + M + P + T;
    assert Off(ps, 0) == 0;
    NoneFrom(ps, 0, |ps|, n);
  }

  /** A description written is the first one the scan finds. */
  lemma {:induction false} DescriptionPresent(root: string, w: string, g: GroupMetadata)
    requires GroupOk(root, w, g) && g.description != []
    ensures FirstText(GroupXml(root, w, g), "description") == Some(g.description)
  {
    var n := "description";
    var A, T := [Tag(root)], [Text(w), Tag("/" + root)];
    var D := DescriptionPieces(w, g.description);
    var M, P := Runs(w, "mutingPermissionSets", g.mutingPermissionSets), Runs(w, "permissionSets", g.permissionSets);
    var ps := GroupPieces(root, w, g);
    assert ps == A + D + (M + P + T);
    GroupWellFormed(root, w, g);
    var xs := [g.description];
    assert xs[1..] == [] && Runs(w, n, xs[1..]) == [];
    assert D == [Text(w)] + Run(n, g.description) + [];
    assert D == [Text(w)] + Run(n, g.description);
    PlacedMid(A, D, M + P + T);
    assert Off(ps, 0) == 0;
    assert NoTag(ps, 0, 1, n) by {
      assert ps[0] == Tag(root);
    }
    FirstRunOf(ps, 0, 1, w, n, g.description);
  }

  lemma {:induction false} GroupDescriptionRead(root: string, w: string, g: GroupMetadata)
    requires GroupOk(root, w, g)
    ensures ParseGroup(GroupXml(root, w, g)).description == g.description
  {
    if g.description == [] {
      DescriptionAbsent(root, w, g);
    } else {
      DescriptionPresent(root, w, g);
    }
  }

  /** A permission set group reads back as written. */
  lemma {:induction false} GroupRoundTrip(root: string, w: string, g: GroupMetadata)
    requires GroupOk(root, w, g)
    ensures ParseGroup(GroupXml(root, w, g)) == g
  {
    GroupPermissionSetsRead(root, w, g);
    GroupMutingRead(root, w, g);
    GroupDescriptionRead(root, w, g);
  }
}

