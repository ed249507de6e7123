/** Planning one change of a client configuration: which bytes are to replace
    the bytes that were read, and what they leave alone. `repr` is how Python
    reads and writes a floating-point number. */
module ConfigPlan {
  import opened Wrappers
  import Base64
  import opened Utf8
  import opened JsonText
  import opened JsonReadsBack
  import opened JsonMembers

  type Bytes = seq<Base64.Byte>

  const SERVERS: Text := [109, 99, 112, 83, 101, 114, 118, 101, 114, 115]   // mcpServers
  const COMMAND: Text := [99, 111, 109, 109, 97, 110, 100]   // command
  const ARGS: Text := [97, 114, 103, 115]   // args

  const MAX_CONFIG := 1024 * 1024

  datatype Refusal = InvalidConfig | DuplicateKey | EntryConflict | Unencodable | SizeLimit

  // ----- Reading and writing

  /** The server table is an object, or there is none. */
  predicate Tabled(config: Members) { Lookup(config, SERVERS).Some? ==> Lookup(config, SERVERS).value.Obj? }

  function Parse(repr: string -> string, raw: Bytes): Result<Members, Refusal> {
    match Utf8.Decode(raw)
    case None => Err(InvalidConfig)
    case Some(s) =>
      match ReadText(repr, s)
      case Err(Malformed) => Err(InvalidConfig)
      case Err(RepeatedKey) => Err(DuplicateKey)
      case Ok(v) => if v.Obj? && Tabled(v.members) then Ok(v.members) else Err(InvalidConfig)
  }

  /** A missing file reads as no bytes and an empty configuration. */
  function Read(repr: string -> string, file: Option<Bytes>): Result<(Bytes, Members), Refusal> {
    match file
    case None => Ok(([], NoMembers))
    case Some(raw) =>
      if |raw| > MAX_CONFIG then Err(InvalidConfig)
      else
        match Parse(repr, raw)
        case Err(e) => Err(e)
        case Ok(config) => Ok((raw, config))
  }

  function Render(config: Members): Bytes
    requires EncodableMembers(config)
  {
    Utf8.Utf8(WriteText(Obj(config)))
  }

  /** What a configuration that was read, or an edit of one, satisfies. */
  predicate Readable(repr: string -> string, config: Members) { Legible(repr, Obj(config)) && Tabled(config) }

  lemma ParsedIsReadable(repr: string -> string, raw: Bytes)
    requires Settles(repr) && Parse(repr, raw).Ok?
    ensures Readable(repr, Parse(repr, raw).value)
  {
    ReadIsLegible(repr, Skip(Utf8.Decode(raw).value));
  }

  /** What is written is read back, unless it holds an infinite number: then it is refused. */
  lemma RenderReadsBack(repr: string -> string, config: Members)
    requires Readable(repr, config) && EncodableMembers(config)
    ensures Parse(repr, Render(config)) == if FiniteMembers(config) then Ok(config) else Err(InvalidConfig)
  {
    DecodeUtf8(WriteText(Obj(config)));
    TextReadsBack(repr, Obj(config));
  }

  // ----- Edits

  /** Install the entry that launches `command` with `args` under `name`, or remove it. */
  datatype Edit = Edit(name: Text, command: Text, args: seq<Text>, remove: bool)

  function Strings(texts: seq<Text>): Items {
    if texts == [] then NoItems else Item(Str(texts[0]), Strings(texts[1..]))
  }

  function Entry(e: Edit): Json {
    Obj(Member(COMMAND, Str(e.command), Member(ARGS, Arr(Strings(e.args)), NoMembers)))
  }

  /** Equal to the entry as a dictionary, in whatever order. */
  predicate IsEntry(v: Json, e: Edit) {
    && v.Obj? && Count(v.members) == 2
    && Lookup(v.members, COMMAND) == Some(Str(e.command)) && Lookup(v.members, ARGS) == Some(Arr(Strings(e.args)))
  }

  function Servers(config: Members): Members {
    match Lookup(config, SERVERS)
    case Some(Obj(servers)) => servers
    case _ => NoMembers
  }

  function Existing(config: Members, e: Edit): Option<Json> { Lookup(Servers(config), e.name) }

  /** The tool edits only an entry that is absent, null or exactly its own. */
  predicate Conflicts(config: Members, e: Edit) {
    Existing(config, e).Some? && Existing(config, e).value != Null && !IsEntry(Existing(config, e).value, e)
  }

  datatype Action = Install | Remove | Unchanged

  function ActionOf(config: Members, e: Edit): Action {
    var existing := Existing(config, e);
    if e.remove then (if existing.Some? then Remove else Unchanged)
    else if existing.Some? && IsEntry(existing.value, e) then Unchanged
    else Install
  }

  function EditedServers(config: Members, e: Edit): Members {
    match ActionOf(config, e)
    case Unchanged => Servers(config)
    case Remove => Drop(Servers(config), e.name)
    case Install => Put(Servers(config), e.name, Entry(e))
  }

  function Edited(config: Members, e: Edit): Members {
    if ActionOf(config, e).Unchanged? then config else Put(config, SERVERS, Obj(EditedServers(config, e)))
  }

  datatype Plan = Plan(action: Action, original: Bytes, encoded: Bytes)

  function PlanEdit(repr: string -> string, file: Option<Bytes>, e: Edit): Result<Plan, Refusal> {
    match Read(repr, file)
    case Err(refusal) => Err(refusal)
    case Ok((raw, config)) =>
      if Conflicts(config, e) then Err(EntryConflict)
      else if !EncodableMembers(Edited(config, e)) then Err(Unencodable)
      else
        var encoded := Render(Edited(config, e));
        if |encoded| > MAX_CONFIG then Err(SizeLimit) else Ok(Plan(ActionOf(config, e), raw, encoded))
  }

  // ----- What an edit does

  lemma KeysDiffer()
    ensures COMMAND != ARGS
  {
    assert |COMMAND| == 7 && |ARGS| == 4;
  }

  lemma EntryIsEntry(e: Edit)
    ensures IsEntry(Entry(e), e)
  {
    KeysDiffer();
    var m := Entry(e).members;
    assert m.rest.key == ARGS && m.rest.rest.NoMembers?;
    assert Lookup(m, ARGS) == Lookup(m.rest, ARGS);
    assert Count(m.rest) == 1;
  }

  lemma {:induction false} StringsAreFinite(repr: string -> string, texts: seq<Text>)
    ensures FiniteItems(Strings(texts)) && LegibleItems(repr, Strings(texts))
  {
    if texts != [] { StringsAreFinite(repr, texts[1..]); }
  }

  lemma EditReplacesServers(config: Members, e: Edit)
    ensures Servers(Edited(config, e)) == EditedServers(config, e)
    ensures Drop(Edited(config, e), SERVERS) == Drop(config, SERVERS)
  {
    PutSets(config, SERVERS, Obj(EditedServers(config, e)), SERVERS);
  }

  lemma ServersAreEdited(config: Members, e: Edit)
    ensures Drop(EditedServers(config, e), e.name) == Drop(Servers(config), e.name)
    ensures var after := Lookup(EditedServers(config, e), e.name);
            if e.remove then after.None? else after.Some? && IsEntry(after.value, e)
  {
    var servers := Servers(config);
    PutSets(servers, e.name, Entry(e), e.name);
    DropClears(servers, e.name, e.name);
    LookupFinds(Drop(servers, e.name), e.name);
    EntryIsEntry(e);
  }

  /** What an edit leaves alone: every other server and every other key, in their
      order; and what it sets or removes. */
  lemma EditPreservesTheRest(config: Members, e: Edit)
    ensures Drop(Edited(config, e), SERVERS) == Drop(config, SERVERS)
    ensures Drop(Servers(Edited(config, e)), e.name) == Drop(Servers(config), e.name)
    ensures var after := Existing(Edited(config, e), e);
            if e.remove then after.None? else after.Some? && IsEntry(after.value, e)
  {
    EditReplacesServers(config, e);
    ServersAreEdited(config, e);
  }

  /** Disconnecting right after installing gives back the configuration, except
      that a server table that was absent is then empty; so it gives back exactly
      the same one if and only if there was a server table. */
  lemma RemoveUndoesInstall(config: Members, e: Edit)
    requires Tabled(config) && Existing(config, e).None? && !e.remove
    ensures var after := Edited(Edited(config, e), e.(remove := true));
            after == Put(config, SERVERS, Obj(Servers(config))) && (after == config <==> Lookup(config, SERVERS).Some?)
  {
    var servers, middle := Servers(config), Edited(config, e);
    EditPreservesTheRest(config, e);
    LookupFinds(servers, e.name);
    assert Edited(middle, e.(remove := true)) == Put(middle, SERVERS, Obj(servers));
    PutTwice(config, SERVERS, Obj(EditedServers(config, e)), Obj(servers));
  }

  // ----- Edits and numbers

  lemma TwoMembers(m: Members, a: Text, b: Text)
    requires m.Member? && m.rest.Member? && m.rest.rest.NoMembers? && a != b
    requires Lookup(m, a).Some? && Lookup(m, b).Some? && Finite(Lookup(m, a).value) && Finite(Lookup(m, b).value)
    ensures FiniteMembers(m)
  {
    assert Lookup(m.rest, a) == if m.rest.key == a then Some(m.rest.value) else None;
    assert Lookup(m.rest, b) == if m.rest.key == b then Some(m.rest.value) else None;
    assert FiniteMembers(m.rest) == Finite(m.rest.value);
  }

  lemma EntryIsFinite(v: Json, e: Edit)
    requires IsEntry(v, e)
    ensures Finite(v)
  {
    KeysDiffer();
    var m := v.members;
    assert Count(m) == 1 + Count(m.rest);
    assert Count(m.rest) == 1 + Count(m.rest.rest);
    assert m.rest.rest.NoMembers?;
    StringsAreFinite(s => s, e.args);
    TwoMembers(m, COMMAND, ARGS);
  }

  lemma OneIsLegible(repr: string -> string, key: Text, v: Json)
    requires Legible(repr, v)
    ensures var m := Member(key, v, NoMembers); Keys(m) == {key} && Distinct(m) && LegibleMembers(repr, m)
  {
    LookupFinds(Member(key, v, NoMembers), key);
  }

  lemma PairIsLegible(repr: string -> string, a: Text, u: Json, b: Text, v: Json)
    requires a != b && Legible(repr, u) && Legible(repr, v)
    ensures Legible(repr, Obj(Member(a, u, Member(b, v, NoMembers))))
  {
    OneIsLegible(repr, b, v);
  }

  lemma EntryIsLegible(repr: string -> string, e: Edit)
    ensures Legible(repr, Entry(e))
  {
    KeysDiffer();
    StringsAreFinite(repr, e.args);
    PairIsLegible(repr, COMMAND, Str(e.command), ARGS, Arr(Strings(e.args)));
  }

  lemma ServersStayReadable(repr: string -> string, config: Members, e: Edit)
    requires Readable(repr, config)
    ensures Legible(repr, Obj(EditedServers(config, e)))
  {
    if Lookup(config, SERVERS).Some? { LookupIsLegible(repr, config, SERVERS); }
    EntryIsLegible(repr, e);
    PutIsLegible(repr, Servers(config), e.name, Entry(e));
    DropIsLegible(repr, Servers(config), e.name);
  }

  lemma EditedIsReadable(repr: string -> string, config: Members, e: Edit)
    requires Readable(repr, config)
    ensures Readable(repr, Edited(config, e))
  {
    var table := Obj(EditedServers(config, e));
    ServersStayReadable(repr, config, e);
    PutIsLegible(repr, config, SERVERS, table);
    PutSets(config, SERVERS, table, SERVERS);
  }

  lemma ServersStayFinite(repr: string -> string, config: Members, e: Edit)
    requires Readable(repr, config) && !Conflicts(config, e)
    ensures FiniteMembers(EditedServers(config, e)) <==> FiniteMembers(Servers(config))
  {
    if Lookup(config, SERVERS).Some? { LookupIsLegible(repr, config, SERVERS); }
    FiniteExcept(Servers(config), e.name, Entry(e));
    EntryIsEntry(e);
    EntryIsFinite(Entry(e), e);
    if Existing(config, e).Some? && Existing(config, e).value != Null { EntryIsFinite(Existing(config, e).value, e); }
  }

  /** An edit neither brings in nor takes away an infinite number. */
  lemma EditedIsFinite(repr: string -> string, config: Members, e: Edit)
    requires Readable(repr, config) && !Conflicts(config, e)
    ensures FiniteMembers(Edited(config, e)) <==> FiniteMembers(config)
  {
    ServersStayFinite(repr, config, e);
    FiniteExcept(config, SERVERS, Obj(EditedServers(config, e)));
  }

  lemma ReadIsReadable(repr: string -> string, file: Option<Bytes>)
    requires Settles(repr) && Read(repr, file).Ok?
    ensures Readable(repr, Read(repr, file).value.1)
  {
    if file.Some? { ParsedIsReadable(repr, file.value); }
  }

  /** What a plan writes reads back as the edited configuration if and only if the
      configuration holds no infinite number; otherwise it is refused. */
  lemma PlanReadsBack(repr: string -> string, file: Option<Bytes>, e: Edit)
    requires Settles(repr) && PlanEdit(repr, file, e).Ok?
    ensures var config, encoded := Read(repr, file).value.1, PlanEdit(repr, file, e).value.encoded;
            Read(repr, Some(encoded)) == if FiniteMembers(config) then Ok((encoded, Edited(config, e))) else Err(InvalidConfig)
  {
    var config := Read(repr, file).value.1;
    ReadIsReadable(repr, file);
    EditedIsReadable(repr, config, e);
    EditedIsFinite(repr, config, e);
    RenderReadsBack(repr, Edited(config, e));
  }

  lemma EditedTwice(config: Members, e: Edit)
    ensures ActionOf(Edited(config, e), e) == Unchanged && !Conflicts(Edited(config, e), e)
  {
    EditPreservesTheRest(config, e);
  }

  /** Planning the same edit on the result of the plan changes nothing more, or the
      result cannot be read because the configuration holds an infinite number. */
  lemma PlanIsIdempotent(repr: string -> string, file: Option<Bytes>, e: Edit)
    requires Settles(repr) && PlanEdit(repr, file, e).Ok?
    ensures var config, encoded := Read(repr, file).value.1, PlanEdit(repr, file, e).value.encoded;
            PlanEdit(repr, Some(encoded), e) ==
              if FiniteMembers(config) then Ok(Plan(Unchanged, encoded, encoded)) else Err(InvalidConfig)
  {
    PlanReadsBack(repr, file, e);
    EditedTwice(Read(repr, file).value.1, e);
  }
}
