/**
 * Exported Markdown files as text: a YAML block between two fence lines, then the body.
 * YAML text is a parameter: `dump` writes a dictionary, `load` reads one back.
 */
module MarkdownFiles {
  import opened Wrappers
  import opened Texts
  import opened Frontmatter

  const OPEN := "---\n"
  const FENCE := "\n---\n"

  datatype Block = Block(yaml: string, body: string)

  function Compose(yaml: string, body: string): string {
    OPEN + yaml + OPEN + body
  }

  /** The YAML block without its final newline, and the body after the closing fence. */
  function Split(content: string): Option<Block> {
    if !At(content, OPEN, 0) then None
    else
      match IndexOf(content, FENCE, 4)
      case None => None
      case Some(end) => Some(Block(content[4..end], content[end + 5..]))
  }

  /** YAML text as the dumper writes it: newline-terminated, no fence line inside. */
  ghost predicate IsDump(text: string) {
    text != "" && text[|text| - 1] == '\n' && forall i: nat :: !At(text, FENCE, i)
  }

  /** Whatever the body holds, fence lines included, the composed file splits back. */
  lemma SplitComposed(yaml: string, body: string)
    requires IsDump(yaml)
    ensures Split(Compose(yaml, body)) == Some(Block(yaml[..|yaml| - 1], body))
  {
    var s := Compose(yaml, body);
    var end := 3 + |yaml|;
    assert s[..4] == OPEN;
    assert At(s, FENCE, end) by {
      assert s[end] == yaml[|yaml| - 1];
      assert s[end + 1..end + 5] == OPEN;
    }
    forall i: nat | 4 <= i < end ensures !At(s, FENCE, i) {
      NoEarlierFence(yaml, body, i);
    }
    assert IndexOf(s, FENCE, 4) == Some(end);
    assert s[4..end] == yaml[..|yaml| - 1];
    assert s[end + 5..] == body;
  }

  lemma NoEarlierFence(yaml: string, body: string, i: nat)
    requires IsDump(yaml) && 4 <= i < 3 + |yaml|
    ensures !At(Compose(yaml, body), FENCE, i)
  {
    var s := Compose(yaml, body);
    assert forall k :: 4 <= k < 4 + |yaml| ==> s[k] == yaml[k - 4];
    if i + 5 <= 4 + |yaml| {
      assert s[i..i + 5] == yaml[i - 4..i + 1];
      assert !At(yaml, FENCE, i - 4);
    } else {
      // The last newline of the block would have to be a hyphen.
      assert s[3 + |yaml|] == '\n';
      assert s[i..i + 5][3 + |yaml| - i] == s[3 + |yaml|];
      assert FENCE[1] == '-' && FENCE[2] == '-' && FENCE[3] == '-';
    }
  }

  /******* Histories of exports and archivings *******/

  datatype Meta = Meta(title: string, sourceId: string, drivePath: string, exportedAt: string)

  datatype Op = Export(meta: Meta, body: string) | Archive(time: string)

  function ScriptValues(m: Meta): Values {
    map[Title := Text(m.title), Source := Text("gdrive"), SourceId := Text(m.sourceId),
      DrivePath := Text(m.drivePath), ExportedAt := Text(m.exportedAt),
      Archived := Flag(false), ArchivedAt := Null]
  }

  function Script(m: Meta): (d: Dict)
    ensures d.Valid() && IsScript(d.values)
  {
    var d := Dict(SCRIPT_KEYS, ScriptValues(m));
    assert forall k :: k in SCRIPT_KEYS <==> IsScriptKey(k) by { forall k { SchemaKeys(k); } }
    d
  }

  ghost predicate IsYaml(dump: Dict -> string, load: string -> Parsed) {
    && load("") == NullDocument
    && (forall t :: load(t).Mapping? ==> load(t).dict.Valid())
    && (forall d: Dict :: d.Valid() ==> Written(dump, load, d))
  }

  ghost predicate Written(dump: Dict -> string, load: string -> Parsed, d: Dict) {
    IsDump(dump(d)) && load(dump(d)[..|dump(d)| - 1]) == Mapping(d)
  }

  /** The dictionary an export starts from: empty when there is no readable block. */
  function Existing(load: string -> Parsed, content: Option<string>): Dict {
    match content
    case None => EMPTY
    case Some(text) =>
      match Split(text)
      case None => EMPTY
      case Some(block) => if load(block.yaml).Mapping? then load(block.yaml).dict else EMPTY
  }

  /** The file has a block that is not YAML: every operation on it raises. */
  predicate IsMalformed(load: string -> Parsed, content: Option<string>) {
    content.Some? && Split(content.value).Some? && load(Split(content.value).value.yaml).Malformed?
  }

  lemma ExistingIsValid(dump: Dict -> string, load: string -> Parsed, content: Option<string>)
    requires IsYaml(dump, load)
    ensures Existing(load, content).Valid()
  {}

  function Stamped(d: Dict, time: string): Dict
    requires d.Valid()
  {
    d.Put(Archived, Flag(true)).Put(ArchivedAt, Text(time))
  }

  /**
   * One export or archiving of the file. A file without a block is left alone by archiving;
   * one that raises leaves the file as it is.
   */
  ghost function Step(dump: Dict -> string, load: string -> Parsed, content: Option<string>, op: Op): Option<string>
    requires IsYaml(dump, load)
  {
    match op
    case Export(meta, body) =>
      ExistingIsValid(dump, load, content);
      if IsMalformed(load, content) then content
      else Some(Compose(dump(OrderedMerge(Existing(load, content), Script(meta))), body))
    case Archive(time) =>
      if content.None? || Split(content.value).None? then content
      else
        var block := Split(content.value).value;
        match load(block.yaml)
        case Mapping(d) => Some(Compose(dump(Stamped(d, time)), block.body))
        case NullDocument => Some(Compose(dump(Stamped(EMPTY, time)), block.body))
        case FalsyOther => Some(Compose(dump(Stamped(EMPTY, time)), block.body))
        case Other => content
        case Malformed => content
  }

  ghost function Run(dump: Dict -> string, load: string -> Parsed, start: Option<string>, ops: seq<Op>): Option<string>
    requires IsYaml(dump, load)
  {
    if ops == [] then start
    else Step(dump, load, Run(dump, load, start, ops[..|ops| - 1]), ops[|ops| - 1])
  }

  predicate HasExport(ops: seq<Op>) {
    exists i :: 0 <= i < |ops| && ops[i].Export?
  }

  function LastExport(ops: seq<Op>): (i: nat)
    requires HasExport(ops)
    ensures i < |ops| && ops[i].Export? && forall j :: i < j < |ops| ==> ops[j].Archive?
  {
    if ops[|ops| - 1].Export? then |ops| - 1 else LastExport(ops[..|ops| - 1])
  }

  /** What the file must hold: the old user keys under the last export, stamped if archived since. */
  function Expected(prior: Values, ops: seq<Op>): Values
    requires HasExport(ops)
  {
    var last := LastExport(ops);
    var merged := SimpleMerge(prior, Script(ops[last].meta).values) - {ArchivedAt};
    if last == |ops| - 1 then merged
    else merged[Archived := Flag(true)][ArchivedAt := Text(ops[|ops| - 1].time)]
  }

  /** A key of the user: as it was, or its default. */
  function UserValue(prior: Values, k: Key): Option<Value> {
    if k in prior then Some(prior[k])
    else if k.Tags? then Some(Items([]))
    else if k.AccessTier? then Some(Text("public"))
    else None
  }

  /** Script keys from the last export and archiving; every other key as it was at the start, tags and access tier by default. */
  ghost predicate Says(v: Values, prior: Values, meta: Meta, archived: Option<string>) {
    && Lookup(v, Title) == Some(Text(meta.title))
    && Lookup(v, Source) == Some(Text("gdrive"))
    && Lookup(v, SourceId) == Some(Text(meta.sourceId))
    && Lookup(v, DrivePath) == Some(Text(meta.drivePath))
    && Lookup(v, ExportedAt) == Some(Text(meta.exportedAt))
    && Lookup(v, Archived) == Some(Flag(archived.Some?))
    && Lookup(v, ArchivedAt) == (if archived.Some? then Some(Text(archived.value)) else None)
    && (forall k: Key :: k.Tags? || k.AccessTier? || k.Custom? ==>
          Lookup(v, k) == UserValue(prior, k))
  }

  /** The archiving after the last export that still counts: the latest one. */
  function ArchivedAfter(ops: seq<Op>): Option<string>
    requires HasExport(ops)
  {
    if ops[|ops| - 1].Archive? then Some(ops[|ops| - 1].time) else None
  }

  lemma MergedAt(prior: Values, meta: Meta, k: Key)
    ensures Lookup(SimpleMerge(prior, Script(meta).values) - {ArchivedAt}, k)
            == if k == ArchivedAt then None
               else if IsScriptKey(k) then Lookup(Script(meta).values, k)
               else Lookup(USER_DEFAULTS + prior, k)
  {
    hide Script;
  }

  lemma MergedSays(prior: Values, meta: Meta)
    ensures Says(SimpleMerge(prior, Script(meta).values) - {ArchivedAt}, prior, meta, None)
  {
    hide SimpleMerge, Lookup, ScriptValues;
    var v := SimpleMerge(prior, Script(meta).values) - {ArchivedAt};
    ScriptAt(meta);
    MergedAt(prior, meta, Title);
    MergedAt(prior, meta, Source);
    MergedAt(prior, meta, SourceId);
    MergedAt(prior, meta, DrivePath);
    MergedAt(prior, meta, ExportedAt);
    MergedAt(prior, meta, Archived);
    MergedAt(prior, meta, ArchivedAt);
    forall k: Key | k.Tags? || k.AccessTier? || k.Custom? ensures Lookup(v, k) == UserValue(prior, k) {
      MergedAt(prior, meta, k);
      DefaultsAt(prior, k);
    }
  }

  lemma DefaultsAt(prior: Values, k: Key)
    ensures Lookup(USER_DEFAULTS + prior, k) == UserValue(prior, k)
  {}

  lemma ScriptAt(meta: Meta)
    ensures var v := ScriptValues(meta);
            && Lookup(v, Title) == Some(Text(meta.title)) && Lookup(v, Source) == Some(Text("gdrive"))
            && Lookup(v, SourceId) == Some(Text(meta.sourceId)) && Lookup(v, DrivePath) == Some(Text(meta.drivePath))
            && Lookup(v, ExportedAt) == Some(Text(meta.exportedAt)) && Lookup(v, Archived) == Some(Flag(false))
  {}

  lemma StampedSays(v: Values, prior: Values, meta: Meta, time: string)
    requires Says(v, prior, meta, None)
    ensures Says(v[Archived := Flag(true)][ArchivedAt := Text(time)], prior, meta, Some(time))
  {
    var w := v[Archived := Flag(true)][ArchivedAt := Text(time)];
    assert forall k: Key :: k != Archived && k != ArchivedAt ==> Lookup(w, k) == Lookup(v, k);
  }

  lemma ExpectedSays(prior: Values, ops: seq<Op>)
    requires HasExport(ops)
    ensures Says(Expected(prior, ops), prior, ops[LastExport(ops)].meta, ArchivedAfter(ops))
  {
    hide Says, SimpleMerge, Script;
    var meta := ops[LastExport(ops)].meta;
    MergedSays(prior, meta);
    if ops[|ops| - 1].Archive? {
      StampedSays(SimpleMerge(prior, Script(meta).values) - {ArchivedAt}, prior, meta, ops[|ops| - 1].time);
    }
  }

  /** Equal on the keys the script does not manage, once defaults are filled in. */
  ghost predicate SameUserKeys(v: Values, w: Values) {
    forall k :: !IsScriptKey(k) ==>
      && (k in USER_DEFAULTS + v <==> k in USER_DEFAULTS + w)
      && (k in USER_DEFAULTS + v ==> (USER_DEFAULTS + v)[k] == (USER_DEFAULTS + w)[k])
  }

  lemma MergeForgetsScriptKeys(v: Values, w: Values, script: Values)
    requires IsScript(script) && SameUserKeys(v, w)
    ensures SimpleMerge(v, script) == SimpleMerge(w, script)
  {
    var a, b := SimpleMerge(v, script), SimpleMerge(w, script);
    assert forall k :: k in a <==> k in b;
    assert forall k :: k in a ==> a[k] == b[k];
  }

  /** The file is exactly a dumped dictionary over a body. */
  ghost predicate Holds(dump: Dict -> string, content: Option<string>, values: Values, body: string) {
    exists d: Dict :: d.Valid() && d.values == values && content == Some(Compose(dump(d), body))
  }

  /**
   * A file whose block is not YAML stays as it is. After any other history of exports and
   * archivings that exports at least once, whatever file was there before, the file reads
   * back as the last exported body under the last export's metadata; every other key keeps
   * the value it had at the start.
   */
  lemma {:induction false} HistoryLaw(
      dump: Dict -> string, load: string -> Parsed, start: Option<string>, ops: seq<Op>)
    requires IsYaml(dump, load)
    ensures IsMalformed(load, start) ==> Run(dump, load, start, ops) == start
    ensures !IsMalformed(load, start) ==>
              && !IsMalformed(load, Run(dump, load, start, ops))
              && SameUserKeys(Existing(load, Run(dump, load, start, ops)).values, Existing(load, start).values)
    ensures !IsMalformed(load, start) && HasExport(ops) ==>
              Holds(dump, Run(dump, load, start, ops),
                    Expected(Existing(load, start).values, ops), ops[LastExport(ops)].body)
  {
    hide Existing, Split, Compose, Expected, SameUserKeys, Holds, Step, IsYaml, IsMalformed;
    if ops == [] {
      SameUserKeysRefl(Existing(load, start).values);
    } else {
      var before := ops[..|ops| - 1];
      HistoryLaw(dump, load, start, before);
      var content := Run(dump, load, start, before);
      if IsMalformed(load, start) {
        MalformedStays(dump, load, content, ops[|ops| - 1]);
      } else {
        match ops[|ops| - 1] {
          case Export(_, _) => ExportStep(dump, load, start, content, ops);
          case Archive(_) => ArchiveStep(dump, load, start, content, ops);
        }
      }
    }
  }

  /**
   * After such a history the file is a block that names title, source, identifier, path and
   * time of the last export and whether and when it was archived since, over that export's
   * body; tags, access tier and custom keys are those of the file at the start.
   */
  lemma FileTells(dump: Dict -> string, load: string -> Parsed, start: Option<string>, ops: seq<Op>) returns (d: Dict)
    requires IsYaml(dump, load) && !IsMalformed(load, start) && HasExport(ops)
    ensures var last := ops[LastExport(ops)];
            && Run(dump, load, start, ops) == Some(Compose(dump(d), last.body))
            && Existing(load, Run(dump, load, start, ops)) == d
            && Says(d.values, Existing(load, start).values, last.meta, ArchivedAfter(ops))
  {
    hide Run, IsMalformed, Split, Compose, Expected, IsDump, Says;
    HistoryLaw(dump, load, start, ops);
    var prior := Existing(load, start).values;
    d :| d.Valid() && d.values == Expected(prior, ops)
         && Run(dump, load, start, ops) == Some(Compose(dump(d), ops[LastExport(ops)].body));
    WrittenReadsBack(dump, load, d, ops[LastExport(ops)].body);
    ExpectedSays(prior, ops);
  }

  lemma MalformedStays(dump: Dict -> string, load: string -> Parsed, content: Option<string>, op: Op)
    requires IsYaml(dump, load) && IsMalformed(load, content)
    ensures Step(dump, load, content, op) == content
  {
    hide Split, Compose, OrderedMerge;
  }

  lemma SameUserKeysRefl(v: Values)
    ensures SameUserKeys(v, v)
  {}

  /** Writing a dictionary over a body reads back as that dictionary. */
  lemma WrittenReadsBack(dump: Dict -> string, load: string -> Parsed, d: Dict, body: string)
    requires IsYaml(dump, load) && d.Valid()
    ensures Split(Compose(dump(d), body)) == Some(Block(dump(d)[..|dump(d)| - 1], body))
    ensures load(dump(d)[..|dump(d)| - 1]) == Mapping(d)
    ensures Existing(load, Some(Compose(dump(d), body))) == d
    ensures !IsMalformed(load, Some(Compose(dump(d), body)))
  {
    assert Written(dump, load, d);
    SplitComposed(dump(d), body);
  }

  lemma ExportStep(dump: Dict -> string, load: string -> Parsed, start: Option<string>,
                   content: Option<string>, ops: seq<Op>)
    requires IsYaml(dump, load) && ops != [] && ops[|ops| - 1].Export? && !IsMalformed(load, content)
    requires SameUserKeys(Existing(load, content).values, Existing(load, start).values)
    ensures var next, prior := Step(dump, load, content, ops[|ops| - 1]), Existing(load, start).values;
            && !IsMalformed(load, next)
            && SameUserKeys(Existing(load, next).values, prior)
            && HasExport(ops)
            && Holds(dump, next, Expected(prior, ops), ops[LastExport(ops)].body)
  {
    hide Split, Compose, OrderedMerge, IsDump, SimpleMerge;
    var op := ops[|ops| - 1];
    var prior := Existing(load, start).values;
    ExistingIsValid(dump, load, content);
    var d := OrderedMerge(Existing(load, content), Script(op.meta));
    OrderedIsSimple(Existing(load, content), Script(op.meta));
    MergeForgetsScriptKeys(Existing(load, content).values, prior, Script(op.meta).values);
    WrittenReadsBack(dump, load, d, op.body);
    assert LastExport(ops) == |ops| - 1;
    ExportValues(prior, op.meta);
    assert d.values == Expected(prior, ops);
  }

  /** An export always clears the archive time and leaves the user keys. */
  lemma ExportValues(prior: Values, meta: Meta)
    ensures var m := SimpleMerge(prior, Script(meta).values);
            DropNull(m) == m - {ArchivedAt} && SameUserKeys(m - {ArchivedAt}, prior)
  {}

  lemma ArchiveStep(dump: Dict -> string, load: string -> Parsed, start: Option<string>,
                    content: Option<string>, ops: seq<Op>)
    requires IsYaml(dump, load) && ops != [] && ops[|ops| - 1].Archive? && !IsMalformed(load, content)
    requires var prior := Existing(load, start).values; var before := ops[..|ops| - 1];
             && SameUserKeys(Existing(load, content).values, prior)
             && (HasExport(before) ==> Holds(dump, content, Expected(prior, before), before[LastExport(before)].body))
    ensures var next, prior := Step(dump, load, content, ops[|ops| - 1]), Existing(load, start).values;
            && !IsMalformed(load, next)
            && SameUserKeys(Existing(load, next).values, prior)
            && (HasExport(ops) ==> Holds(dump, next, Expected(prior, ops), ops[LastExport(ops)].body))
  {
    hide Existing, Step, SameUserKeys, Holds, Expected, IsYaml, IsMalformed;
    var time := ops[|ops| - 1].time;
    var before := ops[..|ops| - 1];
    var prior := Existing(load, start).values;
    ArchiveKeepsUserKeys(dump, load, content, time, prior);
    if HasExport(ops) {
      assert HasExport(before) by {
        var i :| 0 <= i < |ops| && ops[i].Export?;
        assert before[i].Export?;
      }
      var body := before[LastExport(before)].body;
      assert LastExport(ops) == LastExport(before);
      ArchiveStamps(dump, load, content, time, Expected(prior, before), body);
      StampOfExpected(prior, ops);
    }
  }

  lemma StampOfExpected(prior: Values, ops: seq<Op>)
    requires ops != [] && ops[|ops| - 1].Archive? && HasExport(ops[..|ops| - 1]) && HasExport(ops)
    ensures Expected(prior, ops) ==
            Expected(prior, ops[..|ops| - 1])[Archived := Flag(true)][ArchivedAt := Text(ops[|ops| - 1].time)]
  {
    hide SimpleMerge, Script;
    assert LastExport(ops) == LastExport(ops[..|ops| - 1]);
  }

  lemma ArchiveStamps(dump: Dict -> string, load: string -> Parsed, content: Option<string>, time: string,
                      values: Values, body: string)
    requires IsYaml(dump, load) && Holds(dump, content, values, body)
    ensures Holds(dump, Step(dump, load, content, Archive(time)),
                  values[Archived := Flag(true)][ArchivedAt := Text(time)], body)
  {
    hide Split, Compose, IsDump, IsYaml;
    var d: Dict :| d.Valid() && d.values == values && content == Some(Compose(dump(d), body));
    WrittenReadsBack(dump, load, d, body);
    var next := Stamped(d, time);
    assert next.Valid() && next.values == values[Archived := Flag(true)][ArchivedAt := Text(time)];
  }

  /**
   * Archiving marks any file whose block is a mapping, null or another empty value, and
   * changes nothing else: every other key and the body read back as before.
   */
  lemma ArchiveTells(dump: Dict -> string, load: string -> Parsed, content: string, time: string)
    requires IsYaml(dump, load) && Split(content).Some?
    requires var p := load(Split(content).value.yaml); p.Mapping? || p.NullDocument? || p.FalsyOther?
    ensures var next := Step(dump, load, Some(content), Archive(time));
            && next.Some? && Split(next.value).Some? && Split(next.value).value.body == Split(content).value.body
            && var v, w := Existing(load, Some(content)).values, Existing(load, next).values;
            && Lookup(w, Archived) == Some(Flag(true)) && Lookup(w, ArchivedAt) == Some(Text(time))
            && forall k :: k != Archived && k != ArchivedAt ==> Lookup(w, k) == Lookup(v, k)
  {
    hide Split, Compose, IsDump;
    var d := Existing(load, Some(content));
    ExistingIsValid(dump, load, Some(content));
    WrittenReadsBack(dump, load, Stamped(d, time), Split(content).value.body);
  }

  lemma StampKeepsUserKeys(d: Dict, time: string, prior: Values)
    requires d.Valid() && SameUserKeys(d.values, prior)
    ensures Stamped(d, time).Valid() && SameUserKeys(Stamped(d, time).values, prior)
  {
    hide Dict.Valid, Dict.Put;
    var v, w := USER_DEFAULTS + d.values, USER_DEFAULTS + Stamped(d, time).values;
    forall k | !IsScriptKey(k)
      ensures (k in v <==> k in w) && (k in v ==> v[k] == w[k])
    {
      assert k in d.values <==> k in Stamped(d, time).values;
    }
  }

  lemma ArchiveKeepsUserKeys(dump: Dict -> string, load: string -> Parsed, content: Option<string>, time: string,
                             prior: Values)
    requires IsYaml(dump, load) && SameUserKeys(Existing(load, content).values, prior) && !IsMalformed(load, content)
    ensures SameUserKeys(Existing(load, Step(dump, load, content, Archive(time))).values, prior)
    ensures !IsMalformed(load, Step(dump, load, content, Archive(time)))
  {
    hide Split, Compose, IsDump, SameUserKeys, Stamped;
    if content.Some? && Split(content.value).Some? {
      var block := Split(content.value).value;
      if !load(block.yaml).Other? {
        var d := Existing(load, content);
        ExistingIsValid(dump, load, content);
        StampKeepsUserKeys(d, time, prior);
        WrittenReadsBack(dump, load, Stamped(d, time), block.body);
      }
    }
  }
}
