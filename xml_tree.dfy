/**
 * The mapping document as a tree. Elements carry a tag from the fixed
 * LIST_IMPORT vocabulary; the printed layout (indentation, escaping) is not
 * part of the tree.
 */
module XmlTree {

  /** The element names the LIST_IMPORT schema uses. */
  datatype Tag =
    | ListImport | ListInfo
    | Action | ListType | ListName | ListId | ListVisibility | ListDateFormat
    | FileType | ParentFolderId | ParentFolderPath | HasHeaders | DoubleOptIn | EncodedAsMd5
    | SyncFields | SyncField | Name
    | Columns | Column | Type | IsRequired | KeyColumn | DefaultValue
    | Mapping | Index | Include
    | ContactLists | ContactListId

  /** The place of a tag in the declaration above. */
  function Ordinal(t: Tag): nat {
    match t
    case ListImport => 0
    case ListInfo => 1
    case Action => 2
    case ListType => 3
    case ListName => 4
    case ListId => 5
    case ListVisibility => 6
    case ListDateFormat => 7
    case FileType => 8
    case ParentFolderId => 9
    case ParentFolderPath => 10
    case HasHeaders => 11
    case DoubleOptIn => 12
    case EncodedAsMd5 => 13
    case SyncFields => 14
    case SyncField => 15
    case Name => 16
    case Columns => 17
    case Column => 18
    case Type => 19
    case IsRequired => 20
    case KeyColumn => 21
    case DefaultValue => 22
    case Mapping => 23
    case Index => 24
    case Include => 25
    case ContactLists => 26
    case ContactListId => 27
  }

  /** The element name as it is written in the document. */
  function TagName(t: Tag): string {
    match t
    case ListImport => "LIST_IMPORT"
    case ListInfo => "LIST_INFO"
    case Action => "ACTION"
    case ListType => "LIST_TYPE"
    case ListName => "LIST_NAME"
    case ListId => "LIST_ID"
    case ListVisibility => "LIST_VISIBILITY"
    case ListDateFormat => "LIST_DATE_FORMAT"
    case FileType => "FILE_TYPE"
    case ParentFolderId => "PARENT_FOLDER_ID"
    case ParentFolderPath => "PARENT_FOLDER_PATH"
    case HasHeaders => "HASHEADERS"
    case DoubleOptIn => "DOUBLE_OPT_IN"
    case EncodedAsMd5 => "ENCODED_AS_MD5"
    case SyncFields => "SYNC_FIELDS"
    case SyncField => "SYNC_FIELD"
    case Name => "NAME"
    case Columns => "COLUMNS"
    case Column => "COLUMN"
    case Type => "TYPE"
    case IsRequired => "IS_REQUIRED"
    case KeyColumn => "KEY_COLUMN"
    case DefaultValue => "DEFAULT_VALUE"
    case Mapping => "MAPPING"
    case Index => "INDEX"
    case Include => "INCLUDE"
    case ContactLists => "CONTACT_LISTS"
    case ContactListId => "CONTACT_LIST_ID"
  }

  datatype Node = Element(tag: Tag, children: seq<Node>) | Text(text: string)

  /** A document: the XML declaration's version and encoding, and the root element. */
  datatype Document = Document(version: string, encoding: string, root: Node)

  /** What Builder's `instruct!` declares: `<?xml version="1.0" encoding="UTF-8"?>`. */
  const XML_VERSION := "1.0"
  const XML_ENCODING := "UTF-8"

  /** The tags of the elements among `nodes`. */
  function Tags(nodes: seq<Node>): set<Tag> {
    set n | n in nodes && n.Element? :: n.tag
  }
}
