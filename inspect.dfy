/**
 * The pure part of `showCurrent`: what it reports about the settings
 * content.  `JSON.parse` is not modelled; its outcome is an abstract
 * document, JSON `null`, or a parse error.
 */
module Inspect {
  import opened Wrappers
  import opened Lines

  /** `permissions.allow` and `permissions.deny`, each a list of rule strings when present. */
  datatype Permissions = Permissions(allow: Option<seq<string>>, deny: Option<seq<string>>)

  /** The fields the inspection looks at; everything else in the document is opaque. */
  datatype Document = Document(
    permissions: Option<Permissions>,
    env: Option<seq<(string, string)>>,
    mcpServers: Option<seq<string>>)

  /**
   * The outcome of `JSON.parse`.  A document that parses to `null` is its
   * own case: reading `null.permissions` throws inside the same `try`, so
   * it ends in the raw preview like a syntax error.
   */
  datatype Parsed = Malformed | NullDocument | Parsed(doc: Document)

  /** What `showCurrent` reports. */
  datatype Report =
    | NoSettings(path: string)
    | Summary(allowed: nat, denied: nat, env: Option<seq<(string, string)>>, servers: Option<seq<string>>)
    | RawPreview(text: string)
    | Unreadable(path: string)

  /** `rules?.length || 0`. */
  function RuleCount(rules: Option<seq<string>>): (n: nat)
    ensures rules.Some? ==> n == |rules.value|
    ensures rules.None? ==> n == 0
  {
    match rules
    case None => 0
    case Some(list) => |list|
  }

  /**
   * The report for readable settings content: counts, environment and
   * server names for a document; otherwise the first twenty lines of the
   * raw text, which is a prefix of it and all of it when it is short.
   */
  function Summarise(content: string, parsed: Parsed): (r: Report)
    ensures r.Summary? <==> parsed.Parsed?
    ensures r.Summary? ==>
              var doc := parsed.doc;
              && r.allowed == (if doc.permissions.Some? && doc.permissions.value.allow.Some?
                               then |doc.permissions.value.allow.value| else 0)
              && r.denied == (if doc.permissions.Some? && doc.permissions.value.deny.Some?
                              then |doc.permissions.value.deny.value| else 0)
              && r.env == doc.env
              && r.servers == doc.mcpServers
    ensures !r.Summary? ==> && r == RawPreview(Preview(content))
                            && r.text <= content
                            && (NewlineCount(content) < PreviewLines ==> r.text == content)
                            && (NewlineCount(content) >= PreviewLines ==>
                                  |r.text| < |content| && content[|r.text|] == '\n')
                            && NewlineCount(r.text) == (if NewlineCount(content) < PreviewLines
                                                        then NewlineCount(content) else PreviewLines - 1)
  {
    match parsed
    case Parsed(doc) =>
      var perms := doc.permissions;
      Summary(
        if perms.Some? then RuleCount(perms.value.allow) else 0,
        if perms.Some? then RuleCount(perms.value.deny) else 0,
        doc.env,
        doc.mcpServers)
    case _ => RawPreview(Preview(content))
  }
}
