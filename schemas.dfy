/** The validators for the option objects of the note-creating and note-updating tools.
    Each is a schema over a JSON object in which every field may be missing (or
    `undefined`); text fields take any string, permission fields one name out of a fixed
    list. As with any object schema of the validation library, keys that the schema does
    not name are accepted and dropped from the result. */
module Schemas {
  import opened JsValues

  /** Who may read or write a note. */
  datatype NotePermissionRole = Owner | SignedIn | Guest

  /** Who may comment on a note. */
  datatype CommentPermissionType = Disabled | Forbidden | Owners | SignedInUsers | Everyone

  function RoleName(role: NotePermissionRole): string {
    match role
    case Owner => "owner"
    case SignedIn => "signed_in"
    case Guest => "guest"
  }

  function CommentName(c: CommentPermissionType): string {
    match c
    case Disabled => "disabled"
    case Forbidden => "forbidden"
    case Owners => "owners"
    case SignedInUsers => "signed_in_users"
    case Everyone => "everyone"
  }

  /** The role enum validator: accepts exactly the three role names. */
  function ParseRole(v: JsValue): (r: Option<NotePermissionRole>)
    ensures r.Some? ==> v == Str(RoleName(r.value))
  {
    if v == Str("owner") then Some(Owner)
    else if v == Str("signed_in") then Some(SignedIn)
    else if v == Str("guest") then Some(Guest)
    else None
  }

  /** The comment-permission enum validator: accepts exactly the five names. */
  function ParseComment(v: JsValue): (r: Option<CommentPermissionType>)
    ensures r.Some? ==> v == Str(CommentName(r.value))
  {
    if v == Str("disabled") then Some(Disabled)
    else if v == Str("forbidden") then Some(Forbidden)
    else if v == Str("owners") then Some(Owners)
    else if v == Str("signed_in_users") then Some(SignedInUsers)
    else if v == Str("everyone") then Some(Everyone)
    else None
  }

  /** The value stored under `key`, `undefined` when the key is missing. */
  function Field(props: map<string, JsValue>, key: string): JsValue {
    if key in props then props[key] else Undefined
  }

  /** An optional string field: missing, or any string. */
  predicate OptionalString(v: JsValue) {
    v.Undefined? || v.Str?
  }

  /** An optional role field: missing, or one of the role names. */
  predicate OptionalRole(v: JsValue) {
    v.Undefined? || v in {Str("owner"), Str("signed_in"), Str("guest")}
  }

  /** An optional comment-permission field: missing, or one of the five names. */
  predicate OptionalComment(v: JsValue) {
    v.Undefined? ||
    v in {Str("disabled"), Str("forbidden"), Str("owners"), Str("signed_in_users"), Str("everyone")}
  }

  /** The note-creation options, as the validator hands them on. */
  datatype CreateNoteOptions = CreateNoteOptions(
    title: Option<string>,
    content: Option<string>,
    readPermission: Option<NotePermissionRole>,
    writePermission: Option<NotePermissionRole>,
    commentPermission: Option<CommentPermissionType>,
    permalink: Option<string>)

  /** The note-update options: no title and no comment permission. */
  datatype UpdateNoteOptions = UpdateNoteOptions(
    content: Option<string>,
    readPermission: Option<NotePermissionRole>,
    writePermission: Option<NotePermissionRole>,
    permalink: Option<string>)

  /** The note-creation schema accepts the input. */
  predicate ValidCreateInput(v: JsValue) {
    v.Obj? &&
    OptionalString(Field(v.props, "title")) &&
    OptionalString(Field(v.props, "content")) &&
    OptionalRole(Field(v.props, "readPermission")) &&
    OptionalRole(Field(v.props, "writePermission")) &&
    OptionalComment(Field(v.props, "commentPermission")) &&
    OptionalString(Field(v.props, "permalink"))
  }

  /** The note-update schema accepts the input. */
  predicate ValidUpdateInput(v: JsValue) {
    v.Obj? &&
    OptionalString(Field(v.props, "content")) &&
    OptionalRole(Field(v.props, "readPermission")) &&
    OptionalRole(Field(v.props, "writePermission")) &&
    OptionalString(Field(v.props, "permalink"))
  }

  function StringField(v: JsValue): Option<string> {
    if v.Str? then Some(v.s) else None
  }

  /** `CreateNoteOptionsSchema.safeParse`: the typed options, or None when the input is rejected. */
  function ParseCreateNoteOptions(v: JsValue): (r: Option<CreateNoteOptions>)
    ensures r.Some? <==> ValidCreateInput(v)
    ensures r.Some? ==>
              r.value.title == StringField(Field(v.props, "title")) &&
              r.value.content == StringField(Field(v.props, "content")) &&
              r.value.readPermission == ParseRole(Field(v.props, "readPermission")) &&
              r.value.writePermission == ParseRole(Field(v.props, "writePermission")) &&
              r.value.commentPermission == ParseComment(Field(v.props, "commentPermission")) &&
              r.value.permalink == StringField(Field(v.props, "permalink"))
  {
    if !v.Obj? then None
    else
      var title := Field(v.props, "title");
      var content := Field(v.props, "content");
      var read := Field(v.props, "readPermission");
      var write := Field(v.props, "writePermission");
      var comment := Field(v.props, "commentPermission");
      var permalink := Field(v.props, "permalink");
      if OptionalString(title) && OptionalString(content) &&
         (read.Undefined? || ParseRole(read).Some?) && (write.Undefined? || ParseRole(write).Some?) &&
         (comment.Undefined? || ParseComment(comment).Some?) && OptionalString(permalink)
      then Some(CreateNoteOptions(
        StringField(title), StringField(content),
        if read.Undefined? then None else ParseRole(read),
        if write.Undefined? then None else ParseRole(write),
        if comment.Undefined? then None else ParseComment(comment),
        StringField(permalink)))
      else None
  }

  /** `UpdateNoteOptionsSchema.safeParse`: the typed options, or None when the input is rejected. */
  function ParseUpdateNoteOptions(v: JsValue): (r: Option<UpdateNoteOptions>)
    ensures r.Some? <==> ValidUpdateInput(v)
    ensures r.Some? ==>
              r.value.content == StringField(Field(v.props, "content")) &&
              r.value.readPermission == ParseRole(Field(v.props, "readPermission")) &&
              r.value.writePermission == ParseRole(Field(v.props, "writePermission")) &&
              r.value.permalink == StringField(Field(v.props, "permalink"))
  {
    if !v.Obj? then None
    else
      var content := Field(v.props, "content");
      var read := Field(v.props, "readPermission");
      var write := Field(v.props, "writePermission");
      var permalink := Field(v.props, "permalink");
      if OptionalString(content) &&
         (read.Undefined? || ParseRole(read).Some?) && (write.Undefined? || ParseRole(write).Some?) &&
         OptionalString(permalink)
      then Some(UpdateNoteOptions(
        StringField(content),
        if read.Undefined? then None else ParseRole(read),
        if write.Undefined? then None else ParseRole(write),
        StringField(permalink)))
      else None
  }

  // ---------------------------------------------------------------------------------
  // Encoding the typed options back as the JSON object a client would send

  function Put(props: map<string, JsValue>, key: string, v: Option<JsValue>): map<string, JsValue> {
    if v.Some? then props[key := v.value] else props
  }

  function StrOpt(s: Option<string>): Option<JsValue> {
    if s.Some? then Some(Str(s.value)) else None
  }

  function RoleOpt(r: Option<NotePermissionRole>): Option<JsValue> {
    if r.Some? then Some(Str(RoleName(r.value))) else None
  }

  function CommentOpt(c: Option<CommentPermissionType>): Option<JsValue> {
    if c.Some? then Some(Str(CommentName(c.value))) else None
  }

  /** The JSON object holding exactly the fields that `o` sets. */
  function CreateInput(o: CreateNoteOptions): JsValue {
    Obj(Put(Put(Put(Put(Put(Put(map[],
      "title", StrOpt(o.title)),
      "content", StrOpt(o.content)),
      "readPermission", RoleOpt(o.readPermission)),
      "writePermission", RoleOpt(o.writePermission)),
      "commentPermission", CommentOpt(o.commentPermission)),
      "permalink", StrOpt(o.permalink)))
  }

  /** The JSON object holding exactly the fields that `o` sets. */
  function UpdateInput(o: UpdateNoteOptions): JsValue {
    Obj(Put(Put(Put(Put(map[],
      "content", StrOpt(o.content)),
      "readPermission", RoleOpt(o.readPermission)),
      "writePermission", RoleOpt(o.writePermission)),
      "permalink", StrOpt(o.permalink)))
  }

  // ---------------------------------------------------------------------------------
  // Properties

  /** The role validator accepts a string exactly when it is the name of a role, and then
      returns that role: name and validator are inverse. */
  lemma RoleRoundTrip(role: NotePermissionRole, v: JsValue)
    ensures ParseRole(Str(RoleName(role))) == Some(role)
    ensures ParseRole(v).Some? <==> OptionalRole(v) && !v.Undefined?
  {
  }

  /** The comment validator accepts a string exactly when it is the name of a comment
      permission, and then returns that permission. */
  lemma CommentRoundTrip(c: CommentPermissionType, v: JsValue)
    ensures ParseComment(Str(CommentName(c))) == Some(c)
    ensures ParseComment(v).Some? <==> OptionalComment(v) && !v.Undefined?
  {
  }

  /** Every field is optional: the empty object is accepted by both schemas. */
  lemma EmptyOptionsAccepted()
    ensures ParseCreateNoteOptions(Obj(map[])) == Some(CreateNoteOptions(None, None, None, None, None, None))
    ensures ParseUpdateNoteOptions(Obj(map[])) == Some(UpdateNoteOptions(None, None, None, None))
  {
  }

  /** A permission field holding anything but a role name (another string, `null`, a number)
      makes the creation input invalid, whatever the other fields hold. */
  lemma CreateRejectsUnknownRole(props: map<string, JsValue>, key: string, v: JsValue)
    requires key == "readPermission" || key == "writePermission"
    requires !OptionalRole(v)
    ensures ParseCreateNoteOptions(Obj(props[key := v])).None?
  {
    assert Field(props[key := v], key) == v;
  }

  /** A comment permission that is not one of the five names makes the creation input invalid. */
  lemma CreateRejectsUnknownComment(props: map<string, JsValue>, v: JsValue)
    requires !OptionalComment(v)
    ensures ParseCreateNoteOptions(Obj(props["commentPermission" := v])).None?
  {
    assert Field(props["commentPermission" := v], "commentPermission") == v;
  }

  /** Title, content and permalink take any string. */
  lemma CreateAcceptsAnyText(title: string, content: string, permalink: string)
    ensures ParseCreateNoteOptions(Obj(map["title" := Str(title), "content" := Str(content), "permalink" := Str(permalink)]))
            == Some(CreateNoteOptions(Some(title), Some(content), None, None, None, Some(permalink)))
  {
    var m := map["title" := Str(title), "content" := Str(content), "permalink" := Str(permalink)];
    assert Field(m, "title") == Str(title);
    assert Field(m, "content") == Str(content);
    assert Field(m, "permalink") == Str(permalink);
    assert "readPermission" !in m && "writePermission" !in m && "commentPermission" !in m;
  }

  /** The fields of the encoded creation record. */
  lemma CreateInputFields(o: CreateNoteOptions)
    ensures var p := CreateInput(o).props;
            Field(p, "title") == (if o.title.Some? then Str(o.title.value) else Undefined) &&
            Field(p, "content") == (if o.content.Some? then Str(o.content.value) else Undefined) &&
            Field(p, "readPermission") ==
              (if o.readPermission.Some? then Str(RoleName(o.readPermission.value)) else Undefined) &&
            Field(p, "writePermission") ==
              (if o.writePermission.Some? then Str(RoleName(o.writePermission.value)) else Undefined) &&
            Field(p, "commentPermission") ==
              (if o.commentPermission.Some? then Str(CommentName(o.commentPermission.value)) else Undefined) &&
            Field(p, "permalink") == (if o.permalink.Some? then Str(o.permalink.value) else Undefined)
  {
  }

  /** Encoding a creation record and validating it gives the record back. */
  lemma CreateRoundTrip(o: CreateNoteOptions)
    ensures ParseCreateNoteOptions(CreateInput(o)) == Some(o)
  {
    CreateInputFields(o);
    if o.readPermission.Some? { RoleRoundTrip(o.readPermission.value, Undefined); }
    if o.writePermission.Some? { RoleRoundTrip(o.writePermission.value, Undefined); }
    if o.commentPermission.Some? { CommentRoundTrip(o.commentPermission.value, Undefined); }
  }

  /** Encoding an update record and validating it gives the record back. */
  lemma UpdateRoundTrip(o: UpdateNoteOptions)
    ensures ParseUpdateNoteOptions(UpdateInput(o)) == Some(o)
  {
    var p := UpdateInput(o).props;
    assert Field(p, "content") == (if o.content.Some? then Str(o.content.value) else Undefined);
    assert Field(p, "readPermission") ==
      (if o.readPermission.Some? then Str(RoleName(o.readPermission.value)) else Undefined);
    assert Field(p, "writePermission") ==
      (if o.writePermission.Some? then Str(RoleName(o.writePermission.value)) else Undefined);
    assert Field(p, "permalink") == (if o.permalink.Some? then Str(o.permalink.value) else Undefined);
    if o.readPermission.Some? { RoleRoundTrip(o.readPermission.value, Undefined); }
    if o.writePermission.Some? { RoleRoundTrip(o.writePermission.value, Undefined); }
  }

  /** The creation schema names only its six fields: any other key is neither checked nor kept. */
  lemma CreateIgnoresOtherKeys(props: map<string, JsValue>, key: string, v: JsValue)
    requires key !in {"title", "content", "readPermission", "writePermission", "commentPermission", "permalink"}
    ensures ParseCreateNoteOptions(Obj(props[key := v])) == ParseCreateNoteOptions(Obj(props))
  {
    var q := props[key := v];
    assert Field(q, "title") == Field(props, "title");
    assert Field(q, "content") == Field(props, "content");
    assert Field(q, "readPermission") == Field(props, "readPermission");
    assert Field(q, "writePermission") == Field(props, "writePermission");
    assert Field(q, "commentPermission") == Field(props, "commentPermission");
    assert Field(q, "permalink") == Field(props, "permalink");
  }

  /** The update schema names only content, the two roles and the permalink: a title, a comment
      permission or any other key is neither checked nor kept. */
  lemma UpdateIgnoresOtherKeys(props: map<string, JsValue>, key: string, v: JsValue)
    requires key !in {"content", "readPermission", "writePermission", "permalink"}
    ensures ParseUpdateNoteOptions(Obj(props[key := v])) == ParseUpdateNoteOptions(Obj(props))
  {
    var q := props[key := v];
    assert Field(q, "content") == Field(props, "content");
    assert Field(q, "readPermission") == Field(props, "readPermission");
    assert Field(q, "writePermission") == Field(props, "writePermission");
    assert Field(q, "permalink") == Field(props, "permalink");
  }

  /** Update permissions use the create roles: an input the update schema accepts is accepted by
      the create schema as soon as its title and comment permission are acceptable there, and
      both schemas then agree on content, permissions and permalink. */
  lemma UpdateOptionsAreCreateOptions(v: JsValue)
    requires ValidUpdateInput(v)
    requires OptionalString(Field(v.props, "title")) && OptionalComment(Field(v.props, "commentPermission"))
    ensures ValidCreateInput(v)
    ensures var c := ParseCreateNoteOptions(v).value;
            var u := ParseUpdateNoteOptions(v).value;
            c.content == u.content && c.readPermission == u.readPermission &&
            c.writePermission == u.writePermission && c.permalink == u.permalink
  {
  }
}
