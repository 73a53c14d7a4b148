/**
 * The mapping-document builder (`make_map`): a deterministic serialiser from
 * an import-specification hash to a LIST_IMPORT document.
 *
 * A Ruby hash is modelled as a record of optional values: `None` is a key
 * that was not supplied, `Some(Nil)` or `Some(Bool(false))` a key supplied
 * with a falsy value. A collection is `None` when its key is absent or nil.
 */
module MapBuilder {

  import opened Wrappers
  import opened Errors
  import opened RubyValues
  import opened XmlTree

  datatype SyncFieldEntry = SyncFieldEntry(name: Option<Value>)

  datatype ColumnEntry = ColumnEntry(
    name: Option<Value>,
    kind: Option<Value>,
    isRequired: Option<Value>,
    keyColumn: Option<Value>,
    defaultValue: Option<Value>)

  datatype MappingEntry = MappingEntry(index: Option<Value>, name: Option<Value>, included: Option<Value>)

  datatype ContactListEntry = ContactListEntry(contactListId: Option<Value>)

  /** The `:map` hash of a transfer request. */
  datatype ImportSpec = ImportSpec(
    action: Option<Value>,
    listType: Option<Value>,
    listName: Option<Value>,
    listId: Option<Value>,
    listVisibility: Option<Value>,
    listDateFormat: Option<Value>,
    fileType: Option<Value>,
    parentFolderId: Option<Value>,
    parentFolderPath: Option<Value>,
    hasHeaders: Option<Value>,
    doubleOptIn: Option<Value>,
    encodedAsMd5: Option<Value>,
    syncFields: Option<seq<SyncFieldEntry>>,
    columns: Option<seq<ColumnEntry>>,
    mapping: Option<seq<MappingEntry>>,
    contactLists: Option<seq<ContactListEntry>>)

  /** The argument of `make_map`: a hash, or some other Ruby value. */
  datatype MapArg = Hash(spec: ImportSpec) | NotHash(value: Value)

  const NOT_A_HASH_MESSAGE := "map should be a hash"

  /** One presence-conditional element: its tag, and whether its value is coerced with `!!`. */
  datatype Field = Field(tag: Tag, coerced: bool)

  /** The scalar elements of LIST_INFO, in the order they are written. */
  const LIST_INFO_FIELDS: seq<Field> := [
    Field(Action, false), Field(ListType, false), Field(ListName, false), Field(ListId, false),
    Field(ListVisibility, false), Field(ListDateFormat, false), Field(FileType, false),
    Field(ParentFolderId, false), Field(ParentFolderPath, false),
    Field(HasHeaders, true), Field(DoubleOptIn, true), Field(EncodedAsMd5, true)]

  /** The sub-elements of a COLUMNS/COLUMN entry, in the order they are written. */
  const COLUMN_FIELDS: seq<Field> := [
    Field(Name, false), Field(Type, false), Field(IsRequired, true), Field(KeyColumn, false),
    Field(DefaultValue, false)]

  /** The sub-elements of a MAPPING/COLUMN entry, in the order they are written. */
  const MAPPING_FIELDS: seq<Field> := [Field(Index, false), Field(Name, false), Field(Include, true)]

  function ListInfoValues(s: ImportSpec): (vals: seq<Option<Value>>)
    ensures |vals| == |LIST_INFO_FIELDS|
  {
    [s.action, s.listType, s.listName, s.listId, s.listVisibility, s.listDateFormat, s.fileType,
     s.parentFolderId, s.parentFolderPath, s.hasHeaders, s.doubleOptIn, s.encodedAsMd5]
  }

  function ColumnValues(c: ColumnEntry): (vals: seq<Option<Value>>)
    ensures |vals| == |COLUMN_FIELDS|
  {
    [c.name, c.kind, c.isRequired, c.keyColumn, c.defaultValue]
  }

  function MappingValues(m: MappingEntry): (vals: seq<Option<Value>>)
    ensures |vals| == |MAPPING_FIELDS|
  {
    [m.index, m.name, m.included]
  }

  /** What Builder writes inside an element given a value: nothing for nil, else its `to_s`. */
  function ValueText(v: Value): seq<Node> {
    if v.Nil? then [] else [Text(ToS(v))]
  }

  /** The element written for a supplied field; a coerced field prints the value's truthiness. */
  function FieldElement(f: Field, v: Value): Node {
    Element(f.tag, if f.coerced then [Text(BoolText(Truthy(v)))] else ValueText(v))
  }

  /**
   * The elements written for a run of `xml.TAG value if h.has_key?(key)` lines,
   * one line per field, appended in turn.
   */
  function EmitFields(fields: seq<Field>, vals: seq<Option<Value>>): seq<Node>
    requires |fields| == |vals|
  {
    if |fields| == 0 then []
    else
      var n := |fields| - 1;
      EmitFields(fields[..n], vals[..n])
        + (if vals[n].Some? then [FieldElement(fields[n], vals[n].value)] else [])
  }

  /** The positions of the supplied values, in increasing order. */
  function Supplied(vals: seq<Option<Value>>): seq<nat> {
    if |vals| == 0 then []
    else
      var n := |vals| - 1;
      Supplied(vals[..n]) + (if vals[n].Some? then [n] else [])
  }

  function SyncFieldsNode(fs: seq<SyncFieldEntry>): Node {
    Element(SyncFields, seq(|fs|, i requires 0 <= i < |fs| =>
      Element(SyncField, [Element(Name, ValueText(fs[i].name.GetOr(Nil)))])))
  }

  function ListInfoNode(s: ImportSpec): Node {
    Element(ListInfo,
      EmitFields(LIST_INFO_FIELDS, ListInfoValues(s))
        + Optional(PresentList(s.syncFields), SyncFieldsNode(s.syncFields.GetOr([]))))
  }

  function ColumnsNode(cs: seq<ColumnEntry>): Node {
    Element(Columns, seq(|cs|, i requires 0 <= i < |cs| =>
      Element(Column, EmitFields(COLUMN_FIELDS, ColumnValues(cs[i])))))
  }

  function MappingNode(ms: seq<MappingEntry>): Node {
    Element(Mapping, seq(|ms|, i requires 0 <= i < |ms| =>
      Element(Column, EmitFields(MAPPING_FIELDS, MappingValues(ms[i])))))
  }

  /** One CONTACT_LIST_ID per entry that has the key. */
  function ContactListsNode(ls: seq<ContactListEntry>): Node {
    Element(ContactLists, EmitFields(ContactListFields(|ls|), ContactListIds(ls)))
  }

  function ContactListFields(n: nat): (fields: seq<Field>)
    ensures |fields| == n
  {
    seq(n, _ => Field(ContactListId, false))
  }

  function ContactListIds(ls: seq<ContactListEntry>): (ids: seq<Option<Value>>)
    ensures |ids| == |ls|
  {
    seq(|ls|, i requires 0 <= i < |ls| => ls[i].contactListId)
  }

  /** The one-element run for a block that is written, the empty run otherwise. */
  function Optional(written: bool, block: Node): seq<Node> {
    if written then [block] else []
  }

  function ListImportNode(s: ImportSpec): Node {
    Element(ListImport,
      [ListInfoNode(s)]
        + Optional(PresentList(s.columns), ColumnsNode(s.columns.GetOr([])))
        + Optional(PresentList(s.mapping), MappingNode(s.mapping.GetOr([])))
        + Optional(PresentList(s.contactLists), ContactListsNode(s.contactLists.GetOr([]))))
  }

  /** `make_map`: the mapping document for a hash, or ArgumentError for anything else. */
  function MakeMap(arg: MapArg): (r: Result<Document, Error>)
    ensures r.Err? <==> arg.NotHash?
    ensures r.Err? ==> r.error == ArgumentError(NOT_A_HASH_MESSAGE)
    ensures r.Ok? ==> r.value.version == XML_VERSION && r.value.encoding == XML_ENCODING
    ensures r.Ok? ==> r.value.root.Element? && r.value.root.tag == ListImport
  {
    match arg
    case NotHash(_) => Err(ArgumentError(NOT_A_HASH_MESSAGE))
    case Hash(s) => Ok(Document(XML_VERSION, XML_ENCODING, ListImportNode(s)))
  }

  // ---------------------------------------------------------------------------
  // Presence and order of the scalar elements
  // ---------------------------------------------------------------------------

  /** The index of the first field with tag `t`, or `|fields|` when there is none. */
  function Position(fields: seq<Field>, t: Tag): (p: nat)
    ensures p <= |fields|
    ensures p < |fields| ==> fields[p].tag == t
    ensures forall i :: 0 <= i < p ==> fields[i].tag != t
  {
    if |fields| == 0 then 0
    else if fields[0].tag == t then 0
    else 1 + Position(fields[1..], t)
  }

  ghost predicate DistinctTags(fields: seq<Field>) {
    forall i, j :: 0 <= i < j < |fields| ==> fields[i].tag != fields[j].tag
  }

  /**
   * `kids` is what a block of presence-conditional fields should hold: only
   * elements of those fields, an element exactly for each supplied value,
   * carrying that value's text, in the order of the fields.
   */
  ghost predicate Selects(fields: seq<Field>, vals: seq<Option<Value>>, kids: seq<Node>)
    requires |fields| == |vals|
  {
    && (forall n :: n in kids ==> n.Element? && Position(fields, n.tag) < |fields|)
    && (forall i :: 0 <= i < |fields| ==> (vals[i].Some? <==> fields[i].tag in Tags(kids)))
    && (forall i :: 0 <= i < |fields| && vals[i].Some? ==> FieldElement(fields[i], vals[i].value) in kids)
    && (forall a, b :: 0 <= a < b < |kids| ==>
          kids[a].Element? && kids[b].Element? && Position(fields, kids[a].tag) < Position(fields, kids[b].tag))
  }

  lemma {:induction false} SuppliedIndices(vals: seq<Option<Value>>)
    ensures forall j :: 0 <= j < |Supplied(vals)| ==> Supplied(vals)[j] < |vals| && vals[Supplied(vals)[j]].Some?
    ensures forall i :: 0 <= i < |vals| && vals[i].Some? ==> i in Supplied(vals)
    ensures forall a, b :: 0 <= a < b < |Supplied(vals)| ==> Supplied(vals)[a] < Supplied(vals)[b]
  {
    if |vals| > 0 {
      var n := |vals| - 1;
      var pre := vals[..n];
      var prev := Supplied(pre);
      var idx := Supplied(vals);
      SuppliedIndices(pre);
      assert idx == prev + (if vals[n].Some? then [n] else []);
      forall j | 0 <= j < |idx|
        ensures idx[j] < |vals| && vals[idx[j]].Some?
      {
        if j < |prev| {
          assert idx[j] == prev[j] && pre[prev[j]] == vals[prev[j]];
        }
      }
      forall i | 0 <= i < |vals| && vals[i].Some?
        ensures i in idx
      {
        if i < n {
          assert pre[i] == vals[i] && i in prev;
        } else {
          assert idx[|idx| - 1] == n;
        }
      }
      forall a, b | 0 <= a < b < |idx|
        ensures idx[a] < idx[b]
      {
        if b >= |prev| {
          assert idx[a] == prev[a] && idx[b] == n;
        } else {
          assert idx[a] == prev[a] && idx[b] == prev[b];
        }
      }
    }
  }

  /** The j-th emitted element belongs to the j-th supplied field. */
  lemma {:induction false} EmitFieldsSupplied(fields: seq<Field>, vals: seq<Option<Value>>)
    requires |fields| == |vals|
    ensures |EmitFields(fields, vals)| == |Supplied(vals)|
    ensures forall j :: 0 <= j < |Supplied(vals)| ==>
      && Supplied(vals)[j] < |vals|
      && vals[Supplied(vals)[j]].Some?
      && EmitFields(fields, vals)[j] == FieldElement(fields[Supplied(vals)[j]], vals[Supplied(vals)[j]].value)
  {
    if |fields| > 0 {
      var n := |fields| - 1;
      var pre, prefs := vals[..n], fields[..n];
      var prev, idx := Supplied(pre), Supplied(vals);
      var kids := EmitFields(fields, vals);
      EmitFieldsSupplied(prefs, pre);
      assert idx == prev + (if vals[n].Some? then [n] else []);
      assert kids == EmitFields(prefs, pre) + (if vals[n].Some? then [FieldElement(fields[n], vals[n].value)] else []);
      forall j | 0 <= j < |idx|
        ensures idx[j] < |vals| && vals[idx[j]].Some? && kids[j] == FieldElement(fields[idx[j]], vals[idx[j]].value)
      {
        if j < |prev| {
          assert idx[j] == prev[j] && kids[j] == EmitFields(prefs, pre)[j];
          assert pre[prev[j]] == vals[prev[j]] && prefs[prev[j]] == fields[prev[j]];
        }
      }
    }
  }

  lemma PositionOfField(fields: seq<Field>, i: nat)
    requires DistinctTags(fields) && i < |fields|
    ensures Position(fields, fields[i].tag) == i
  {
  }

  /** The j-th element written sits at the position of the j-th supplied field. */
  lemma EmitFieldsPositions(fields: seq<Field>, vals: seq<Option<Value>>)
    requires |fields| == |vals| && DistinctTags(fields)
    ensures |EmitFields(fields, vals)| == |Supplied(vals)|
    ensures forall j :: 0 <= j < |Supplied(vals)| ==>
      && Supplied(vals)[j] < |fields|
      && EmitFields(fields, vals)[j].Element?
      && Position(fields, EmitFields(fields, vals)[j].tag) == Supplied(vals)[j]
  {
    EmitFieldsSupplied(fields, vals);
    forall j | 0 <= j < |Supplied(vals)|
      ensures Position(fields, EmitFields(fields, vals)[j].tag) == Supplied(vals)[j]
    {
      PositionOfField(fields, Supplied(vals)[j]);
    }
  }

  /** Field `i` is written, with its value's text, exactly when its value is supplied. */
  lemma EmitFieldsMembership(fields: seq<Field>, vals: seq<Option<Value>>, i: nat)
    requires |fields| == |vals| && DistinctTags(fields) && i < |fields|
    ensures vals[i].Some? <==> fields[i].tag in Tags(EmitFields(fields, vals))
    ensures vals[i].Some? ==> FieldElement(fields[i], vals[i].value) in EmitFields(fields, vals)
  {
    var kids := EmitFields(fields, vals);
    var idx := Supplied(vals);
    SuppliedIndices(vals);
    EmitFieldsSupplied(fields, vals);
    EmitFieldsPositions(fields, vals);
    PositionOfField(fields, i);
    if vals[i].Some? {
      var j :| 0 <= j < |idx| && idx[j] == i;
      assert kids[j] == FieldElement(fields[i], vals[i].value);
      assert kids[j] in kids;
    }
    if fields[i].tag in Tags(kids) {
      var n :| n in kids && n.Element? && n.tag == fields[i].tag;
      var j :| 0 <= j < |kids| && kids[j] == n;
      assert idx[j] == i;
    }
  }

  /** A run of presence-conditional fields with distinct tags writes exactly what `Selects` asks. */
  lemma EmitFieldsSelects(fields: seq<Field>, vals: seq<Option<Value>>)
    requires |fields| == |vals| && DistinctTags(fields)
    ensures Selects(fields, vals, EmitFields(fields, vals))
  {
    var kids := EmitFields(fields, vals);
    assert (forall n :: n in kids ==> n.Element? && Position(fields, n.tag) < |fields|)
        && (forall a, b :: 0 <= a < b < |kids| ==>
              kids[a].Element? && kids[b].Element? && Position(fields, kids[a].tag) < Position(fields, kids[b].tag))
    by {
      SuppliedIndices(vals);
      EmitFieldsPositions(fields, vals);
    }
    forall i | 0 <= i < |fields|
      ensures vals[i].Some? <==> fields[i].tag in Tags(kids)
      ensures vals[i].Some? ==> FieldElement(fields[i], vals[i].value) in kids
    {
      EmitFieldsMembership(fields, vals, i);
    }
  }

  /** Writing the first k fields is writing the first k - 1 and then the k-th. */
  lemma EmitFieldsPrefix(fields: seq<Field>, vals: seq<Option<Value>>, k: nat)
    requires |fields| == |vals| && 0 < k <= |fields|
    ensures EmitFields(fields[..k], vals[..k]) ==
      EmitFields(fields[..k - 1], vals[..k - 1])
        + (if vals[k - 1].Some? then [FieldElement(fields[k - 1], vals[k - 1].value)] else [])
  {
    assert fields[..k][..k - 1] == fields[..k - 1];
    assert vals[..k][..k - 1] == vals[..k - 1];
  }

  /** Fields whose keys are absent write nothing. */
  lemma {:induction false} EmitFieldsSkip(fields: seq<Field>, vals: seq<Option<Value>>, lo: nat, hi: nat)
    requires |fields| == |vals| && lo <= hi <= |fields|
    requires forall i :: lo <= i < hi ==> vals[i].None?
    ensures EmitFields(fields[..hi], vals[..hi]) == EmitFields(fields[..lo], vals[..lo])
    decreases hi
  {
    if lo < hi {
      EmitFieldsPrefix(fields, vals, hi);
      EmitFieldsSkip(fields, vals, lo, hi - 1);
    }
  }

  /** The LIST_INFO fields carry the tags ACTION … ENCODED_AS_MD5, in declaration order. */
  lemma ListInfoOrdinals()
    ensures forall k :: 0 <= k < |LIST_INFO_FIELDS| ==> Ordinal(LIST_INFO_FIELDS[k].tag) == k + 2
  {
    forall k | 0 <= k < |LIST_INFO_FIELDS|
      ensures Ordinal(LIST_INFO_FIELDS[k].tag) == k + 2
    {
      if k == 0 {
      } else if k == 1 {
      } else if k == 2 {
      } else if k == 3 {
      } else if k == 4 {
      } else if k == 5 {
      } else if k == 6 {
      } else if k == 7 {
      } else if k == 8 {
      } else if k == 9 {
      } else if k == 10 {
      } else {
        assert k == 11;
      }
    }
  }

  lemma ListInfoFieldsDistinct()
    ensures DistinctTags(LIST_INFO_FIELDS)
  {
    ListInfoOrdinals();
  }

  lemma ColumnFieldsDistinct()
    ensures DistinctTags(COLUMN_FIELDS)
  {
  }

  lemma MappingFieldsDistinct()
    ensures DistinctTags(MAPPING_FIELDS)
  {
  }

  // ---------------------------------------------------------------------------
  // The blocks of the document
  // ---------------------------------------------------------------------------

  /**
   * LIST_INFO holds the supplied scalar fields in their fixed order, then
   * SYNC_FIELDS last, and SYNC_FIELDS only when the collection is present.
   */
  lemma ListInfoElements(s: ImportSpec)
    ensures var kids := ListInfoNode(s).children;
      && (PresentList(s.syncFields) <==> SyncFields in Tags(kids))
      && (PresentList(s.syncFields) ==>
            && |kids| > 0
            && kids[|kids| - 1] == SyncFieldsNode(s.syncFields.value)
            && Selects(LIST_INFO_FIELDS, ListInfoValues(s), kids[..|kids| - 1]))
      && (!PresentList(s.syncFields) ==> Selects(LIST_INFO_FIELDS, ListInfoValues(s), kids))
  {
    var scalars := EmitFields(LIST_INFO_FIELDS, ListInfoValues(s));
    var kids := ListInfoNode(s).children;
    ListInfoScalars(s);
    TagsAppend(scalars, PresentList(s.syncFields), SyncFieldsNode(s.syncFields.GetOr([])));
    if PresentList(s.syncFields) {
      assert kids[..|kids| - 1] == scalars;
    }
  }

  /** The scalar part of LIST_INFO is what `Selects` asks, and holds no SYNC_FIELDS. */
  lemma ListInfoScalars(s: ImportSpec)
    ensures Selects(LIST_INFO_FIELDS, ListInfoValues(s), EmitFields(LIST_INFO_FIELDS, ListInfoValues(s)))
    ensures SyncFields !in Tags(EmitFields(LIST_INFO_FIELDS, ListInfoValues(s)))
  {
    assert Selects(LIST_INFO_FIELDS, ListInfoValues(s), EmitFields(LIST_INFO_FIELDS, ListInfoValues(s))) by {
      ListInfoFieldsDistinct();
      EmitFieldsSelects(LIST_INFO_FIELDS, ListInfoValues(s));
    }
    assert forall i :: 0 <= i < |LIST_INFO_FIELDS| ==> LIST_INFO_FIELDS[i].tag != SyncFields by {
      ListInfoOrdinals();
    }
    EmitFieldsAvoids(LIST_INFO_FIELDS, ListInfoValues(s), SyncFields);
  }

  /** A tag that no field carries is never written. */
  lemma {:induction false} EmitFieldsAvoids(fields: seq<Field>, vals: seq<Option<Value>>, t: Tag)
    requires |fields| == |vals|
    requires forall i :: 0 <= i < |fields| ==> fields[i].tag != t
    ensures t !in Tags(EmitFields(fields, vals))
  {
    if |fields| > 0 {
      var n := |fields| - 1;
      var pre := EmitFields(fields[..n], vals[..n]);
      EmitFieldsAvoids(fields[..n], vals[..n], t);
      var all := EmitFields(fields, vals);
      forall m | m in all && m.Element?
        ensures m.tag != t
      {
        if m !in pre {
          assert m == FieldElement(fields[n], vals[n].value);
        }
      }
    }
  }

  /** The tags of a sequence with a block appended, or not. */
  lemma TagsAppend(kids: seq<Node>, written: bool, block: Node)
    requires block.Element?
    ensures Tags(kids + Optional(written, block)) == Tags(kids) + (if written then {block.tag} else {})
    ensures forall n :: n in kids ==> n in kids + Optional(written, block)
    ensures written ==> |kids + Optional(written, block)| > 0 && (kids + Optional(written, block))[|kids|] == block
  {
    var r := kids + Optional(written, block);
    if written {
      assert r[|kids|] == block;
      forall n | n in r
        ensures n in kids || n == block
      {
      }
    } else {
      assert r == kids;
    }
  }

  /** A scalar field of LIST_INFO is written exactly when its key is supplied. */
  lemma ListInfoField(s: ImportSpec, i: nat)
    requires i < |LIST_INFO_FIELDS|
    ensures ListInfoValues(s)[i].Some? ==>
      FieldElement(LIST_INFO_FIELDS[i], ListInfoValues(s)[i].value) in ListInfoNode(s).children
    ensures ListInfoValues(s)[i].None? ==> LIST_INFO_FIELDS[i].tag !in Tags(ListInfoNode(s).children)
  {
    var vals := ListInfoValues(s);
    var scalars := EmitFields(LIST_INFO_FIELDS, vals);
    ListInfoFieldsDistinct();
    EmitFieldsMembership(LIST_INFO_FIELDS, vals, i);
    TagsAppend(scalars, PresentList(s.syncFields), SyncFieldsNode(s.syncFields.GetOr([])));
    assert LIST_INFO_FIELDS[i].tag != SyncFields by {
      ListInfoOrdinals();
    }
  }

  /**
   * HASHEADERS, DOUBLE_OPT_IN and ENCODED_AS_MD5 are written whenever their key
   * is supplied, with the text of the value's truthiness (so `false` and `nil`
   * both print "false"), and never when the key is absent.
   */
  lemma BooleanFlagsCoerced(s: ImportSpec)
    ensures var kids := ListInfoNode(s).children;
      && (s.hasHeaders.Some? ==> Element(HasHeaders, [Text(BoolText(Truthy(s.hasHeaders.value)))]) in kids)
      && (s.hasHeaders.None? ==> HasHeaders !in Tags(kids))
      && (s.doubleOptIn.Some? ==> Element(DoubleOptIn, [Text(BoolText(Truthy(s.doubleOptIn.value)))]) in kids)
      && (s.doubleOptIn.None? ==> DoubleOptIn !in Tags(kids))
      && (s.encodedAsMd5.Some? ==> Element(EncodedAsMd5, [Text(BoolText(Truthy(s.encodedAsMd5.value)))]) in kids)
      && (s.encodedAsMd5.None? ==> EncodedAsMd5 !in Tags(kids))
    ensures s.hasHeaders == Some(Bool(false)) || s.hasHeaders == Some(Nil) ==>
      Element(HasHeaders, [Text("false")]) in ListInfoNode(s).children
  {
    ListInfoField(s, 9);
    ListInfoField(s, 10);
    ListInfoField(s, 11);
  }

  /** Every SYNC_FIELD, one per entry in input order, carries a NAME child holding the entry's name. */
  lemma SyncFieldsBlock(fs: seq<SyncFieldEntry>)
    ensures var kids := SyncFieldsNode(fs).children;
      && |kids| == |fs|
      && forall i :: 0 <= i < |fs| ==>
           && kids[i].Element? && kids[i].tag == SyncField && |kids[i].children| == 1
           && kids[i].children[0].Element? && kids[i].children[0].tag == Name
           && (fs[i].name.Some? && !fs[i].name.value.Nil? ==> kids[i].children[0].children == [Text(ToS(fs[i].name.value))])
           && (fs[i].name.GetOr(Nil).Nil? ==> kids[i].children[0].children == [])
  {
  }

  /** COLUMNS has one COLUMN per entry, in input order, each holding that entry's supplied fields. */
  lemma ColumnsBlock(cs: seq<ColumnEntry>)
    ensures var kids := ColumnsNode(cs).children;
      && |kids| == |cs|
      && forall i :: 0 <= i < |cs| ==>
           kids[i].Element? && kids[i].tag == Column && Selects(COLUMN_FIELDS, ColumnValues(cs[i]), kids[i].children)
  {
    ColumnFieldsDistinct();
    forall i | 0 <= i < |cs|
      ensures Selects(COLUMN_FIELDS, ColumnValues(cs[i]), ColumnsNode(cs).children[i].children)
    {
      EmitFieldsSelects(COLUMN_FIELDS, ColumnValues(cs[i]));
    }
  }

  /** MAPPING has one COLUMN per entry, in input order, each holding that entry's supplied fields. */
  lemma MappingBlock(ms: seq<MappingEntry>)
    ensures var kids := MappingNode(ms).children;
      && |kids| == |ms|
      && forall i :: 0 <= i < |ms| ==>
           kids[i].Element? && kids[i].tag == Column && Selects(MAPPING_FIELDS, MappingValues(ms[i]), kids[i].children)
  {
    MappingFieldsDistinct();
    forall i | 0 <= i < |ms|
      ensures Selects(MAPPING_FIELDS, MappingValues(ms[i]), MappingNode(ms).children[i].children)
    {
      EmitFieldsSelects(MAPPING_FIELDS, MappingValues(ms[i]));
    }
  }

  /**
   * IS_REQUIRED in a COLUMNS entry and INCLUDE in a MAPPING entry are written
   * whenever the key is supplied, with the text of the value's truthiness,
   * and never when it is absent.
   */
  lemma EntryFlagsCoerced(c: ColumnEntry, m: MappingEntry)
    ensures var kids := EmitFields(COLUMN_FIELDS, ColumnValues(c));
      && (c.isRequired.Some? ==> Element(IsRequired, [Text(BoolText(Truthy(c.isRequired.value)))]) in kids)
      && (c.isRequired.None? ==> IsRequired !in Tags(kids))
    ensures var kids := EmitFields(MAPPING_FIELDS, MappingValues(m));
      && (m.included.Some? ==> Element(Include, [Text(BoolText(Truthy(m.included.value)))]) in kids)
      && (m.included.None? ==> Include !in Tags(kids))
  {
    ColumnFieldsDistinct();
    MappingFieldsDistinct();
    EmitFieldsSelects(COLUMN_FIELDS, ColumnValues(c));
    EmitFieldsSelects(MAPPING_FIELDS, MappingValues(m));
    assert COLUMN_FIELDS[2] == Field(IsRequired, true);
    assert MAPPING_FIELDS[2] == Field(Include, true);
  }

  /**
   * CONTACT_LISTS holds one CONTACT_LIST_ID per entry that has the key, in
   * input order, and none for an entry without it.
   */
  lemma ContactListsBlock(ls: seq<ContactListEntry>)
    ensures var kids := ContactListsNode(ls).children;
      var idx := Supplied(ContactListIds(ls));
      && |kids| == |idx|
      && (forall j :: 0 <= j < |kids| ==>
            && idx[j] < |ls|
            && ls[idx[j]].contactListId.Some?
            && kids[j] == Element(ContactListId, ValueText(ls[idx[j]].contactListId.value)))
      && (forall i :: 0 <= i < |ls| ==> (ls[i].contactListId.Some? <==> i in idx))
      && (forall a, b :: 0 <= a < b < |idx| ==> idx[a] < idx[b])
  {
    var ids := ContactListIds(ls);
    SuppliedIndices(ids);
    EmitFieldsSupplied(ContactListFields(|ls|), ids);
  }

  /** The order of the top-level blocks inside LIST_IMPORT. */
  function BlockRank(t: Tag): nat {
    match t
    case ListInfo => 0
    case Columns => 1
    case Mapping => 2
    case ContactLists => 3
    case _ => 4
  }

  /** Blocks that appear in the fixed top-level order, each at most once. */
  ghost predicate RankedBlocks(kids: seq<Node>) {
    && (forall n :: n in kids ==> n.Element? && BlockRank(n.tag) < 4)
    && (forall a, b :: 0 <= a < b < |kids| ==>
          kids[a].Element? && kids[b].Element? && BlockRank(kids[a].tag) < BlockRank(kids[b].tag))
  }

  /** Ranked blocks whose ranks are all below `bound`. */
  ghost predicate RankedBelow(kids: seq<Node>, bound: nat) {
    RankedBlocks(kids) && forall n :: n in kids ==> BlockRank(n.tag) < bound
  }

  /** Appending a block of the next rank, or nothing, keeps the blocks ranked. */
  lemma AppendBlock(kids: seq<Node>, written: bool, block: Node)
    requires block.Element? && BlockRank(block.tag) < 4 && RankedBelow(kids, BlockRank(block.tag))
    ensures RankedBelow(kids + Optional(written, block), BlockRank(block.tag) + 1)
  {
    var r := kids + Optional(written, block);
    if written {
      assert r[|kids|] == block;
      forall n | n in r
        ensures n in kids || n == block
      {
      }
    } else {
      assert r == kids;
    }
  }

  /** LIST_IMPORT starts with LIST_INFO and holds its blocks in the fixed order, each at most once. */
  lemma TopLevelOrder(s: ImportSpec)
    ensures var kids := ListImportNode(s).children;
      |kids| > 0 && kids[0] == ListInfoNode(s) && RankedBlocks(kids)
  {
    OrderedBlocks(ListInfoNode(s),
      PresentList(s.columns), ColumnsNode(s.columns.GetOr([])),
      PresentList(s.mapping), MappingNode(s.mapping.GetOr([])),
      PresentList(s.contactLists), ContactListsNode(s.contactLists.GetOr([])));
  }

  /** COLUMNS, MAPPING and CONTACT_LISTS are each written exactly when their collection is present. */
  lemma TopLevelPresence(s: ImportSpec)
    ensures var kids := ListImportNode(s).children;
      && (PresentList(s.columns) <==> Columns in Tags(kids))
      && (PresentList(s.columns) ==> ColumnsNode(s.columns.value) in kids)
      && (PresentList(s.mapping) <==> Mapping in Tags(kids))
      && (PresentList(s.mapping) ==> MappingNode(s.mapping.value) in kids)
      && (PresentList(s.contactLists) <==> ContactLists in Tags(kids))
      && (PresentList(s.contactLists) ==> ContactListsNode(s.contactLists.value) in kids)
  {
    var kids := ListImportNode(s).children;
    var hasColumns, hasMapping, hasContactLists :=
      PresentList(s.columns), PresentList(s.mapping), PresentList(s.contactLists);
    var columns := ColumnsNode(s.columns.GetOr([]));
    var mapping := MappingNode(s.mapping.GetOr([]));
    var contactLists := ContactListsNode(s.contactLists.GetOr([]));
    assert Tags(kids) == {ListInfo} + (if hasColumns then {Columns} else {}) + (if hasMapping then {Mapping} else {})
                           + (if hasContactLists then {ContactLists} else {})
        && (hasColumns ==> columns in kids)
        && (hasMapping ==> mapping in kids)
        && (hasContactLists ==> contactLists in kids) by {
      TaggedBlocks(ListInfoNode(s), hasColumns, columns, hasMapping, mapping, hasContactLists, contactLists);
    }
  }

  lemma OrderedBlocks(info: Node, hasColumns: bool, columns: Node, hasMapping: bool, mapping: Node,
                      hasContactLists: bool, contactLists: Node)
    requires info.Element? && info.tag == ListInfo
    requires columns.Element? && columns.tag == Columns
    requires mapping.Element? && mapping.tag == Mapping
    requires contactLists.Element? && contactLists.tag == ContactLists
    ensures var kids := [info] + Optional(hasColumns, columns) + Optional(hasMapping, mapping)
                          + Optional(hasContactLists, contactLists);
      |kids| > 0 && kids[0] == info && RankedBlocks(kids)
  {
    var k0 := [info];
    var k1 := k0 + Optional(hasColumns, columns);
    var k2 := k1 + Optional(hasMapping, mapping);
    assert RankedBelow(k0, 1);
    AppendBlock(k0, hasColumns, columns);
    AppendBlock(k1, hasMapping, mapping);
    AppendBlock(k2, hasContactLists, contactLists);
  }

  lemma TaggedBlocks(info: Node, hasColumns: bool, columns: Node, hasMapping: bool, mapping: Node,
                     hasContactLists: bool, contactLists: Node)
    requires info.Element? && info.tag == ListInfo
    requires columns.Element? && columns.tag == Columns
    requires mapping.Element? && mapping.tag == Mapping
    requires contactLists.Element? && contactLists.tag == ContactLists
    ensures var kids := [info] + Optional(hasColumns, columns) + Optional(hasMapping, mapping)
                          + Optional(hasContactLists, contactLists);
      && Tags(kids) == {ListInfo} + (if hasColumns then {Columns} else {}) + (if hasMapping then {Mapping} else {})
                         + (if hasContactLists then {ContactLists} else {})
      && (hasColumns ==> columns in kids)
      && (hasMapping ==> mapping in kids)
      && (hasContactLists ==> contactLists in kids)
  {
    var k0 := [info];
    var k1 := k0 + Optional(hasColumns, columns);
    var k2 := k1 + Optional(hasMapping, mapping);
    assert Tags(k0) == {ListInfo};
    TagsAppend(k0, hasColumns, columns);
    TagsAppend(k1, hasMapping, mapping);
    TagsAppend(k2, hasContactLists, contactLists);
  }

  /**
   * A CREATE import of a CSV file whose first column maps to EMAIL: the
   * end-to-end example of the mapping document.
   */
  function CreateExample(): ImportSpec {
    ImportSpec(Some(Str("CREATE")), None, None, None, None, None, Some(Int(0)), None, None, None, None, None,
               None, None, Some([MappingEntry(Some(Int(0)), Some(Str("EMAIL")), None)]), None)
  }

  lemma CreateExampleAction()
    ensures EmitFields(LIST_INFO_FIELDS[..1], ListInfoValues(CreateExample())[..1]) == [Element(Action, [Text("CREATE")])]
  {
    var info := ListInfoValues(CreateExample());
    assert info[..0] == [] && LIST_INFO_FIELDS[..0] == [];
    EmitFieldsPrefix(LIST_INFO_FIELDS, info, 1);
  }

  lemma CreateExampleFileType()
    ensures EmitFields(LIST_INFO_FIELDS[..7], ListInfoValues(CreateExample())[..7]) ==
      [Element(Action, [Text("CREATE")]), Element(FileType, [Text("0")])]
  {
    var info := ListInfoValues(CreateExample());
    CreateExampleAction();
    EmitFieldsSkip(LIST_INFO_FIELDS, info, 1, 6);
    assert NatText(0) == "0";
    EmitFieldsPrefix(LIST_INFO_FIELDS, info, 7);
  }

  lemma CreateExampleListInfo()
    ensures ListInfoNode(CreateExample()) ==
      Element(ListInfo, [Element(Action, [Text("CREATE")]), Element(FileType, [Text("0")])])
  {
    var info := ListInfoValues(CreateExample());
    CreateExampleFileType();
    EmitFieldsSkip(LIST_INFO_FIELDS, info, 7, 12);
    assert LIST_INFO_FIELDS[..12] == LIST_INFO_FIELDS && info[..12] == info;
  }

  lemma CreateExampleMapping()
    ensures MappingNode(CreateExample().mapping.value) ==
      Element(Mapping, [Element(Column, [Element(Index, [Text("0")]), Element(Name, [Text("EMAIL")])])])
  {
    var column := MappingValues(CreateExample().mapping.value[0]);
    var index := Element(Index, [Text("0")]);
    var name := Element(Name, [Text("EMAIL")]);
    assert NatText(0) == "0";
    assert column[..0] == [] && MAPPING_FIELDS[..0] == [];
    EmitFieldsPrefix(MAPPING_FIELDS, column, 1);
    assert EmitFields(MAPPING_FIELDS[..1], column[..1]) == [index];
    EmitFieldsPrefix(MAPPING_FIELDS, column, 2);
    assert EmitFields(MAPPING_FIELDS[..2], column[..2]) == [index, name];
    EmitFieldsPrefix(MAPPING_FIELDS, column, 3);
    assert MAPPING_FIELDS[..3] == MAPPING_FIELDS && column[..3] == column;
    assert EmitFields(MAPPING_FIELDS, column) == [index, name];
    var kids := MappingNode(CreateExample().mapping.value).children;
    assert |kids| == 1 && kids[0] == Element(Column, [index, name]);
  }

  /** The mapping document of the example, element for element. */
  lemma CreateExampleDocument()
    ensures MakeMap(Hash(CreateExample())) == Ok(Document("1.0", "UTF-8",
      Element(ListImport, [
        Element(ListInfo, [Element(Action, [Text("CREATE")]), Element(FileType, [Text("0")])]),
        Element(Mapping, [Element(Column, [Element(Index, [Text("0")]), Element(Name, [Text("EMAIL")])])])])))
  {
    var s := CreateExample();
    CreateExampleListInfo();
    CreateExampleMapping();
    assert PresentList(s.mapping) && !PresentList(s.columns) && !PresentList(s.contactLists);
    assert ListImportNode(s).children == [ListInfoNode(s), MappingNode(s.mapping.value)];
  }
}
