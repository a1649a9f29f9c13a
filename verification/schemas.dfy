/**
 * The input schemas of the four tools and the argument shapes they describe
 * (src/backlog/schemas.ts). A schema lists its properties in declaration order
 * (the order the validator walks them) and, optionally, the names it requires.
 */
module Schemas {
  import opened Wrappers
  import opened JsValues

  datatype PropertyType = NumberType | StringType | ArrayOf(item: PropertyType)

  datatype Property = Property(name: string, ptype: PropertyType, description: string)

  /** `required` is absent on a schema without a `required` list;
      `additionalProperties` is carried but never consulted by the validator. */
  datatype Schema = Schema(
    properties: seq<Property>,
    required: Option<seq<string>>,
    additionalProperties: Option<bool>)
  {
    /** The property names, in declaration order. */
    function Names(): (names: seq<string>)
      ensures |names| == |properties|
      ensures forall i :: 0 <= i < |properties| ==> names[i] == properties[i].name
    {
      seq(|properties|, i requires 0 <= i < |properties| => properties[i].name)
    }

    /** `schema.required?.includes(key)`: false when there is no `required` list. */
    predicate Requires(key: string) {
      required.Some? && key in required.value
    }

    /** Every required name is also a declared property, so the validator,
        which walks the properties, checks each of them. */
    predicate RequiredAreDeclared() {
      required.Some? ==> forall key :: key in required.value ==> key in Names()
    }
  }

  const SearchIssuesSchema: Schema := Schema(
    [ Property("projectId", NumberType, "プロジェクトID（数値）"),
      Property("keyword", StringType, "検索キーワード"),
      Property("status", ArrayOf(StringType), "ステータス（未対応、処理中、処理済み、完了）") ],
    Some(["projectId"]),
    None)

  const GetIssueSchema: Schema := Schema(
    [ Property("issueId", StringType, "課題のID（例: PROJECT-1）") ],
    Some(["issueId"]),
    None)

  const UpdateIssueSchema: Schema := Schema(
    [ Property("issueId", StringType, "課題のID（例: PROJECT-1）"),
      Property("status", StringType, "新しいステータス"),
      Property("description", StringType, "課題の説明"),
      Property("comment", StringType, "更新時のコメント") ],
    Some(["issueId"]),
    None)

  const GetProjectsSchema: Schema := Schema([], None, Some(false))

  /** The names each schema requires, stated against its property list. */
  lemma SchemaRequirements()
    ensures SearchIssuesSchema.Names() == ["projectId", "keyword", "status"]
    ensures forall key :: SearchIssuesSchema.Requires(key) <==> key == "projectId"
    ensures GetIssueSchema.Names() == ["issueId"]
    ensures forall key :: GetIssueSchema.Requires(key) <==> key == "issueId"
    ensures UpdateIssueSchema.Names() == ["issueId", "status", "description", "comment"]
    ensures forall key :: UpdateIssueSchema.Requires(key) <==> key == "issueId"
    ensures GetProjectsSchema.Names() == []
    ensures forall key :: !GetProjectsSchema.Requires(key)
  {

  }

  lemma SchemasRequireOnlyDeclaredNames()
    ensures SearchIssuesSchema.RequiredAreDeclared()
    ensures GetIssueSchema.RequiredAreDeclared()
    ensures UpdateIssueSchema.RequiredAreDeclared()
    ensures GetProjectsSchema.RequiredAreDeclared()
  {
    SchemaRequirements();
  }

  /** A value of the declared JSON type. */
  predicate HasType(v: Value, t: PropertyType)
    decreases t
  {
    match t
    case NumberType => v.Num?
    case StringType => v.Str?
    case ArrayOf(item) => v.Arr? && forall i :: 0 <= i < |v.items| ==> HasType(v.items[i], item)
  }

  /** Every declared property that is present holds a value of its declared
      type. The validator never checks this; it describes the arguments the
      argument interfaces below stand for. */
  predicate Conforms(args: Record, schema: Schema) {
    forall i :: 0 <= i < |schema.properties| && schema.properties[i].name in args ==>
      HasType(args[schema.properties[i].name], schema.properties[i].ptype)
  }

  /** The `SearchIssuesArgs` interface. */
  datatype SearchIssuesArgs = SearchIssuesArgs(projectId: int, keyword: Option<string>, status: Option<seq<string>>)

  /** The `GetIssueArgs` interface. */
  datatype GetIssueArgs = GetIssueArgs(issueId: string)

  /** The `UpdateIssueArgs` interface. */
  datatype UpdateIssueArgs = UpdateIssueArgs(
    issueId: string,
    status: Option<string>,
    description: Option<string>,
    comment: Option<string>)

  function Strs(ss: seq<string>): (vs: seq<Value>)
    ensures |vs| == |ss|
    ensures forall i :: 0 <= i < |ss| ==> vs[i] == Str(ss[i])
  {
    seq(|ss|, i requires 0 <= i < |ss| => Str(ss[i]))
  }

  /** Adds `key: v` to the record when the optional field is set. */
  function PutOptional(rec: Record, key: string, v: Option<Value>): Record {
    if v.Some? then rec[key := v.value] else rec
  }

  function OptStr(o: Option<string>): Option<Value> {
    if o.Some? then Some(Str(o.value)) else None
  }

  /** The arguments object a caller sends for a `SearchIssuesArgs` value:
      optional fields left unset are absent keys. */
  function SearchIssuesRecord(a: SearchIssuesArgs): (rec: Record)
    ensures rec.Keys <= {"projectId", "keyword", "status"}
    ensures Field(rec, "projectId") == Num(a.projectId)
    ensures a.keyword.None? <==> "keyword" !in rec
    ensures a.keyword.Some? ==> Field(rec, "keyword") == Str(a.keyword.value)
    ensures a.status.None? <==> "status" !in rec
    ensures a.status.Some? ==> Field(rec, "status") == Arr(Strs(a.status.value))
  {
    var withKeyword := PutOptional(map["projectId" := Num(a.projectId)], "keyword", OptStr(a.keyword));
    PutOptional(withKeyword, "status", if a.status.Some? then Some(Arr(Strs(a.status.value))) else None)
  }

  function GetIssueRecord(a: GetIssueArgs): (rec: Record)
    ensures rec.Keys == {"issueId"}
    ensures Field(rec, "issueId") == Str(a.issueId)
  {
    map["issueId" := Str(a.issueId)]
  }

  function UpdateIssueRecord(a: UpdateIssueArgs): (rec: Record)
    ensures rec.Keys <= {"issueId", "status", "description", "comment"}
    ensures Field(rec, "issueId") == Str(a.issueId)
    ensures a.status.None? <==> "status" !in rec
    ensures a.status.Some? ==> Field(rec, "status") == Str(a.status.value)
    ensures a.description.None? <==> "description" !in rec
    ensures a.description.Some? ==> Field(rec, "description") == Str(a.description.value)
    ensures a.comment.None? <==> "comment" !in rec
    ensures a.comment.Some? ==> Field(rec, "comment") == Str(a.comment.value)
  {
    var r0 := map["issueId" := Str(a.issueId)];
    var r1 := PutOptional(r0, "status", OptStr(a.status));
    var r2 := PutOptional(r1, "description", OptStr(a.description));
    PutOptional(r2, "comment", OptStr(a.comment))
  }

  /** The argument interfaces agree with the schemas: their records have every
      required field and only declared fields, each of its declared type. */
  lemma InterfacesConformToSchemas(s: SearchIssuesArgs, g: GetIssueArgs, u: UpdateIssueArgs)
    ensures Conforms(SearchIssuesRecord(s), SearchIssuesSchema)
    ensures Conforms(GetIssueRecord(g), GetIssueSchema)
    ensures Conforms(UpdateIssueRecord(u), UpdateIssueSchema)
    ensures forall key :: SearchIssuesSchema.Requires(key) ==> key in SearchIssuesRecord(s)
    ensures forall key :: GetIssueSchema.Requires(key) ==> key in GetIssueRecord(g)
    ensures forall key :: UpdateIssueSchema.Requires(key) ==> key in UpdateIssueRecord(u)
    ensures forall key :: key in SearchIssuesRecord(s) ==> key in SearchIssuesSchema.Names()
    ensures forall key :: key in GetIssueRecord(g) ==> key in GetIssueSchema.Names()
    ensures forall key :: key in UpdateIssueRecord(u) ==> key in UpdateIssueSchema.Names()
  {
    SchemaRequirements();
  }
}
