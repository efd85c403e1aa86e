# A verified model of rogg

rogg is a BGP daemon with a configuration language, a configure shell and a set of wire codecs. This project
models its most intricate parts and proves what they promise:

- **the configuration language**: tokenizer, parser, printer, and the lowering to the runtime configuration and
  back (`Lexer`, `Parser`, `Printer`, `Layout`, `Leaves`, `Blocks`, `Texts`, `RoundTrip`, `PlainForms`,
  `Lowering`, `PeerForms`, `PolicyForms`, `ConfigForms`, `ParsedForms`, `ConfigExamples`);
- **the BGP-LS codec** of RFC 9552 (`Bytes`, `Tlv`, `LsDescriptors`, `LsNlri`, `LsLengths`, `LsOrders`, `LsAttr`);
- **the configure session**: commands, command trees, level stack, locks and snapshots (`Keyed`, `Edits`,
  `EditMap`, `EditRuns`, `EditWhole`, `EditFailures`, `EditCommit`, `Grammar`, `Trees`, `Shell`, `Commits`, `Sessions`,
  `Snapshots`);
- **OPEN messages and their capabilities** (`Open`, `Capabilities`);
- **extended communities and prefix lists** (`ExtCommunity`, `NlriLists`).

Every part has a functional description about which the theorems are proved. Where the source runs a loop or
updates an object, a method with a loop or a class does the same and is proved to compute the description
(`ParserLoops`, `PrinterLoops`, `LoweringLoops`, `EditLoops` and the methods inside the other modules).

`dafny verify dfyconfig.toml` checks the whole project.

## How to read it

- A failure is a plain value: error texts and line numbers are not modelled.
- Calls whose answer the model cannot know are parameters: how an address is parsed (`AddressParser`), which argument
  words the shell accepts (`Validator`), UTF-8 decoding (`Utf8`), the text of a float (`Floats`), the iteration order
  of a hash map (`Order`), and what lock, file and daemon answer (`World`).
- `hide` statements keep definitions a proof does not need away from the solver.

## What the proofs found

Where a promise does not hold of the code, the model follows the code, a lemma shows an input at which it fails, and a
theorem says exactly when it holds.

- A bare word may hold `#` after an odd number of quotes, because the comment stripper counts quotes inside words
  (`Layout.BareWordExact`).
- Names printed through quoting lose the quotes they contain, and `originate` inside a peer prints a line the parser
  refuses (`Leaves.SettingReadsExactly`; `ConfigExamples.QuoteInName`, `ConfigExamples.OriginateInPeer`).
- A masklength range without bounds prints as nothing. Only a built entry can hold one, since no text yields it
  (`Leaves.MasklengthReadsExactly`, `ParsedForms.RootBounded`; `ConfigExamples.UnboundedRange`).
- Rendering a runtime configuration drops family entries and prefix sets that say nothing, and cannot say that the
  idle hold time or the stale TTL is unset (`ConfigForms.RenderThenLower`; `ConfigExamples.UnsetIdleHold`).
  Configurations that were loaded from text only meet the first two (`ParsedForms.LoadedFixedPoint`;
  `ConfigExamples.EmptyFamilyLost`).
- A failing configure command can change the candidate: the service, peer, BMP, RPKI or telemetry block is created
  before the value is looked at (`EditFailures.FailingEdit`; `EditFailures.FailingUnsetExample`).
- An IGP metric of 2^24 or more is written in four bytes, which the parser refuses (`LsAttr.AttrBack`;
  `LsAttr.WideMetricExample`).
- Unknown TLVs of two types come back in the order of a hash map (`LsOrders.BuiltAlwaysBack`;
  `LsOrders.TwoTypesExample`). An unknown type below the known ones is accepted, but written after them, which the
  parser refuses (`LsOrders.ReidentifiedBack`; `LsOrders.LowTypeExample`).
- OPEN compares the remaining length modulo 256, so longer bodies pass with bytes nobody reads, and it forgets
  unknown capability codes (`Open.DecodeExact`; `Open.TrailingBytesExample`, `Open.ForgottenCodeExample`).
- An ADD-PATH entry that ends after its path identifier is read past its end (`NlriLists.OutOfBoundsExact`;
  `NlriLists.PathIdOnlyExample`).
- Formatting an extended community forgets reserved bytes and the width of small AS numbers
  (`ExtCommunity.NormalExact`; `ExtCommunity.ReservedByteExample`).

## Model

| member | source | states |
|---|---|---|
| RoundTrip.ParsePrinted | conf/src/language_bgp.rs:763-880 | for every printable configuration, tokenizing and parsing its printed text gives back exactly that configuration, through all nested re-indentation |
| RoundTrip.PrintedInjective | conf/src/language.rs:77-87 | two printable configurations with the same text are the same configuration |
| PlainForms.PlainPrintable | conf/src/language_bgp.rs:763-880 | a condition on the values alone that makes a service printable: plain words, quotable strings, no `originate` inside a peer, every masklength range with a bound, JSON and EMF not both |
| PlainForms.PlainRoundTrip | conf/src/language.rs:328-369 | such a configuration survives print and parse |
| Layout.BareWordExact | conf/src/language.rs:131-209 | a word printed without quotes lexes to itself if and only if it is non-empty, does not start with a quote, holds no whitespace or brace, and loses nothing to the comment stripper |
| Layout.QuotableExact | conf/src/language_bgp.rs:931-939 | a quoted word lexes to itself if and only if it holds neither a quote nor a line feed |
| Layout.LexRows | conf/src/language.rs:131-195 | the lines of any laid-out text lex to the tokens of their pieces, whatever the indentation |
| Layout.ReindentRows | conf/src/language_bgp.rs:763-880 | printing a nested block, cutting the text into lines and indenting each is the same as laying its rows out one level deeper |
| Layout.LinesOfJoined | conf/src/language.rs:131-140 | lines joined by line feeds are cut back into the same lines |
| Leaves.SettingReadsExactly | conf/src/language_bgp.rs:385-424 | the printed line of a setting is read back as that setting if and only if it is no `originate` and, for names printed through quoting, holds no quote |
| Leaves.MasklengthReadsExactly | conf/src/language_bgp.rs:1611-1671 | the masklength words of a prefix-list entry are read back if and only if a range has at least one bound |
| Blocks.PeerBlockReads | conf/src/language_bgp.rs:1120-1171 | the rows of a peer block are read back as that block |
| Blocks.FamiliesRead | conf/src/language_bgp.rs:1173-1281 | the rows of the family blocks of a peer are read back in order |
| Blocks.StatementBlockReads | conf/src/language_bgp.rs:1343-1393 | the rows of a policy statement are read back, with or without a name |
| Blocks.PolicyBlockReads | conf/src/language_bgp.rs:1283-1341 | the rows of a policy, shorthand rules and statements mixed, are read back in order |
| Blocks.RpkiReads | conf/src/language_bgp.rs:2003-2053 | the rows of an RPKI cache block are read back, whichever of its eight fields are set |
| Blocks.TelemetryReads | conf/src/language_bgp.rs:1852-2001 | the rows of a telemetry block with JSON or EMF but not both are read back |
| Keywords.KeywordOfText | conf/src/language_bgp.rs:2120-2495 | every keyword is found again from its own spelling, so no two keywords are spelled alike |
| Keywords.TextPlain | conf/src/language_bgp.rs:2137-2151 | every keyword survives the lexer unquoted |
| Decimal.ParseDigits | conf/src/language_bgp.rs:942-950 | a printed number is read back exactly when it fits the integer type asked for |
| Decimal.Ipv4RoundTrip | conf/src/language_bgp.rs:885-929 | a printed IPv4 address is read back |
| Parser.Block | conf/src/language_bgp.rs:1120-1171 | the loop of every block parser: it terminates, and a success stands just after the brace that closes the block |
| Parser.Nested | conf/src/language.rs:262-315 | a braced block is consumed whole: what follows is at the same nesting depth |
| Parser.BodyStatement | conf/src/language_bgp.rs:952-1089 | a statement of the service body never passes the end of its block |
| Parser.PeerStatement | conf/src/language_bgp.rs:1120-1171 | the same for a statement of a peer block |
| Parser.FamilyStatement | conf/src/language_bgp.rs:1173-1281 | the same for a family directive |
| Parser.PolicyStatement | conf/src/language_bgp.rs:1283-1341 | the same for a rule of a policy |
| Parser.StatementStatement | conf/src/language_bgp.rs:1343-1393 | the same for a clause of a policy statement |
| Parser.PrefixListStatement | conf/src/language_bgp.rs:1580-1609 | the same for an entry of a prefix list |
| Parser.WordListStatement | conf/src/language_bgp.rs:1673-1701 | the same for an entry of a neighbor, AS-path or community set |
| Parser.TelemetryStatement | conf/src/language_bgp.rs:1852-1914 | the same for a part of the telemetry block |
| Parser.ParseRoot | conf/src/language.rs:334-369 | accepted input is consumed entirely and its braces are properly nested |
| Parser.AfterNested | conf/src/language.rs:262-297 | leaving two nested blocks is leaving one and then the other |
| Lexer.TokenizeLoop | conf/src/language.rs:131-195 | the tokenizer loop pushes exactly the tokens of its functional description |
| Lexer.StripCommentLoop | conf/src/language.rs:199-209 | the quote-toggling scan cuts a line exactly where the description says |
| Lexer.ScanQuoted | conf/src/language.rs:157-174 | the scan of a quoted word, unterminated words included, consumes exactly that word |
| Lexer.ScanBare | conf/src/language.rs:175-188 | the scan of a bare word consumes exactly that word |
| Lexer.LexLineLoop | conf/src/language.rs:131-195 | one line of the tokenizer appends exactly its tokens and a newline |
| ParserLoops.SkipNewlinesLoop | conf/src/language.rs:317-325 | the loop over newlines stops at the first other token |
| ParserLoops.BlockLoop | conf/src/language_bgp.rs:1120-1171 | the block loop with its moving position computes `Block` and ends after the closing brace |
| ParserLoops.TakeWordsLoop | conf/src/language_bgp.rs:1554-1578 | the loop that collects community values takes the longest run of words |
| ParserLoops.MasklengthLoop | conf/src/language_bgp.rs:1611-1671 | the loop over `exact`, `ge` and `le` computes the masklength range, refusing repetitions and mixtures |
| ParserLoops.RootLoop | conf/src/language.rs:334-369 | the loop over services computes `ParseRoot`; what it accepts is balanced |
| PrinterLoops.ReindentLoop | conf/src/language_bgp.rs:747-761 | the loop over the lines of a nested block prints the block two columns to the right |
| PrinterLoops.ItemsLoop | conf/src/language_bgp.rs:763-880 | the loop over the entries of a service, with its first-entry flag, prints the entries with a blank line before every block but the first |
| PrinterLoops.ServicesLoop | conf/src/language.rs:77-87 | the loop over services prints the whole configuration |
| ConfigForms.RenderThenLower | conf/src/bgp.rs:1395-1520 | a runtime configuration is a fixed point of render-then-lower if and only if it is expressible |
| ConfigForms.LoweredFixedPoint | conf/src/bgp.rs:1240-1347 | a configuration that came from a body is a fixed point if and only if every family entry says something and no prefix set is empty |
| ConfigForms.ConfStrRoundTrip | conf/src/bgp.rs:1384-1390 | the same over text, for configurations whose rendered words are printable: printing and loading returns the configuration if and only if it is expressible |
| ParsedForms.LoadedFixedPoint | conf/src/bgp.rs:1240-1347 | the same for every configuration loaded from any text whatsoever; through its own text when that is printable |
| ConfigExamples.OriginateInPeer | conf/src/language_bgp.rs:1120-1171 | an input that fails: `originate` prints inside a peer, where the parser refuses it |
| ConfigExamples.QuoteInName | conf/src/language_bgp.rs:931-939 | an input that fails: a name with a quote comes back without it |
| ConfigExamples.UnboundedRange | conf/src/language_bgp.rs:602-619 | an input that fails: a masklength range without bounds, which only a built entry can hold, comes back as no range |
| ConfigExamples.UnsetIdleHold | conf/src/bgp.rs:1526-1588 | an input that fails: a peer without an idle hold time comes back with the default one |
| ConfigExamples.FileParses | conf/src/language.rs:328-369 | a file of ten lines, spelled out, parses to the service it shows |
| ConfigExamples.EmptyFamilyLost | conf/src/bgp.rs:2323-2363 | an input that fails: that file is loaded with a family entry that rendering drops |
| ParsedForms.RootBounded | conf/src/language_bgp.rs:1611-1671 | no accepted text yields a masklength range without a bound |
| ParsedForms.BlockKeeps | conf/src/language_bgp.rs:1120-1171 | whatever every statement of a block keeps, the whole block keeps |
| ConfigForms.InsertPeersExact | conf/src/bgp.rs:1210-1220 | inserting peers succeeds if and only if every address is valid and none is repeated, and then keeps their order |
| ConfigForms.RangeBack | conf/src/bgp.rs:2193-2224 | a masklength range is recovered from its runtime string if and only if it has a bound |
| ConfigForms.GlobalsBack | conf/src/bgp.rs:1395-1450 | dropping default globals and applying what is left to the defaults loses nothing but an unset stale TTL |
| ConfigForms.PeersBack | conf/src/bgp.rs:1692-1752 | a list of peers survives if and only if each of them is expressible |
| ConfigForms.PolicyFixedPoint | conf/src/bgp.rs:1966-1980 | a policy survives if and only if it is in normal form |
| ConfigForms.TelemetryBack | conf/src/bgp.rs:1597-1640 | telemetry settings survive, the default listen address included |
| ConfigForms.RpkisBack | conf/src/bgp.rs:1649-1686 | RPKI caches survive |
| PeerForms.PeerFixedPoint | conf/src/bgp.rs:1526-1588 | a peer survives render-then-lower if and only if its idle hold time is set, no family is listed twice and every family entry says something |
| PeerForms.SettingsBack | conf/src/bgp.rs:1526-1588 | peer settings left out because they are defaults come back as those defaults |
| PeerForms.FamiliesInvariant | conf/src/bgp.rs:1756-1769 | merging family blocks never lists a family twice |
| PeerForms.FamiliesBack | conf/src/bgp.rs:2323-2363 | the family blocks rendered from distinct entries are merged back into the same entries in the same order |
| PeerForms.LoweredPeer | conf/src/bgp.rs:1692-1752 | a lowered peer is expressible if and only if each of its family entries says something |
| PolicyForms.ConditionsBack | conf/src/bgp.rs:1831-1866 | match conditions survive the way to clauses and back |
| PolicyForms.StatementBack | conf/src/bgp.rs:2025-2138 | a statement can be rendered if and only if its communities and MED are, and then comes back in normal form |
| PolicyForms.ShorthandDenotes | conf/src/bgp.rs:1985-2021 | the shorthand is chosen only when it denotes the same statement as the full block |
| PolicyForms.RuleBack | conf/src/bgp.rs:1775-1829 | a rendered rule, shorthand or not, lowers to the normal form of its statement |
| PolicyForms.PolicyBack | conf/src/bgp.rs:1966-1980 | a policy can be rendered if and only if all its statements can, and comes back in normal form |
| PolicyForms.LoweredRules | conf/src/bgp.rs:1775-1808 | every lowered policy is already in normal form |
| LoweringLoops.PeerConfigFromBlock | conf/src/bgp.rs:1692-1752 | the loops over settings, families and directives compute the lowered peer |
| LoweringLoops.ApplySettingsLoop | conf/src/bgp.rs:1692-1726 | the loop over peer settings computes their combined effect |
| LoweringLoops.EntryIndexLoop | conf/src/bgp.rs:1756-1769 | the search for a family entry finds the first one or appends an empty one |
| LoweringLoops.ApplyDirectivesLoop | conf/src/bgp.rs:1728-1750 | the loop over family directives computes their combined effect |
| LoweringLoops.FamiliesLoop | conf/src/bgp.rs:2323-2363 | the loop over family entries skips exactly those that say nothing |
| LoweringLoops.PolicyLoop | conf/src/bgp.rs:1775-1808 | the loop over rules lowers a policy, stopping at the first rule that is none |
| LoweringLoops.InsertPeersLoop | conf/src/bgp.rs:1210-1220 | the loop that inserts peers stops at the first invalid or repeated address |
| Tlv.CanonicalUnique | bgpgg/src/bgp/bgpls_nlri.rs:435-492 | two byte strings that both frame, pass the ordering check and hold the same multiset of TLVs are equal |
| Tlv.OrderedSorted | bgpgg/src/bgp/bgpls_nlri.rs:473-492 | the check of adjacent pairs accepts exactly the lists in which every pair is in order |
| Tlv.LeqOrder | bgpgg/src/bgp/bgpls_nlri.rs:473-492 | type, then length, then bytes is a total order |
| Tlv.SortedUnique | bgpgg/src/bgp/bgpls_nlri.rs:473-492 | two sorted lists with the same multiset of TLVs are the same list |
| Tlv.ParseWritten | bgpgg/src/bgp/bgpls_nlri.rs:823-828 | written TLVs are read back in front of any further bytes |
| Tlv.WriteParsed | bgpgg/src/bgp/bgpls_nlri.rs:435-466 | accepted bytes are exactly the writing of what was read |
| Tlv.ParseConcat | bgpgg/src/bgp/bgpls_nlri.rs:435-466 | parsing distributes over concatenation of accepted bytes |
| Tlv.ParseTlvLoop | bgpgg/src/bgp/bgpls_nlri.rs:435-466 | the cursor loop computes the parse |
| Tlv.OrderingLoop | bgpgg/src/bgp/bgpls_nlri.rs:473-492 | the scan of adjacent pairs decides sortedness |
| Tlv.UniqueLoop | bgpgg/src/bgp/bgpls_nlri.rs:495-504 | the scan with a set of seen types decides that no type repeats |
| Bytes.NumBe | bgpgg/src/bgp/bgpls_nlri.rs:823-828 | a number written big-endian in enough bytes is read back |
| Bytes.BeNum | bgpgg/src/bgp/bgpls_nlri.rs:435-466 | bytes read as a number are written back |
| LsDescriptors.NodeBack | bgpgg/src/bgp/bgpls_nlri.rs:794-816 | a node descriptor is read back if and only if its unknown sub-TLVs are of distinct types that are not its own fields |
| LsDescriptors.LinkReads | bgpgg/src/bgp/bgpls_nlri.rs:574-661 | every field of a link descriptor is found again among the TLVs, link identifiers only in pairs |
| LsDescriptors.PrefixReads | bgpgg/src/bgp/bgpls_nlri.rs:666-708 | every field of a prefix descriptor is found again |
| LsDescriptors.DescriptorsBack | bgpgg/src/bgp/bgpls_nlri.rs:393-432 | under one given hash map order: written descriptors are read back if and only if they have the wire form and that order leaves their unknown TLVs as they are |
| LsDescriptors.OneTypeRegroups | bgpgg/src/bgp/bgpls_nlri.rs:640-661 | with unknown TLVs of one type the hash map order does not matter |
| LsDescriptors.DescriptorsUpToOrder | bgpgg/src/bgp/bgpls_nlri.rs:393-432 | whatever the hash map order, everything is read back and the unknown TLVs up to their order |
| LsDescriptors.ParseNodeLoop | bgpgg/src/bgp/bgpls_nlri.rs:507-568 | the loop that sets node fields one by one computes the parse |
| LsNlri.BodyBack | bgpgg/src/bgp/bgpls_nlri.rs:373-390 | the same, under one given order, for the body with protocol and identifier in front |
| LsNlri.ListLossless | bgpgg/src/bgp/bgpls_nlri.rs:295-368 | re-encoding an accepted list reproduces its bytes, under SAFI 72 without the entries too short for a route distinguisher |
| LsNlri.ListConcat | bgpgg/src/bgp/bgpls_nlri.rs:295-368 | an accepted list followed by more bytes parses to the concatenation, so a malformed body never affects its neighbours |
| LsNlri.ListBack | bgpgg/src/bgp/bgpls_nlri.rs:713-729 | a list of entries whose parsed body is that of their bytes is read back |
| LsNlri.BuiltFaithful | bgpgg/src/bgp/bgpls_nlri.rs:733-753 | under one given order a built NLRI is its own parse if and only if its descriptors have the wire form and the order leaves their unknown TLVs as they are |
| LsNlri.BuiltBack | bgpgg/src/bgp/bgpls_nlri.rs:733-753 | the same for build, write and parse of a list, under one given order |
| LsOrders.BuiltAlwaysBack | bgpgg/src/bgp/bgpls_nlri.rs:733-753 | build, write and parse returns the NLRI under every hash map order if and only if its descriptors have the wire form and their unknown TLVs have one type |
| LsOrders.AlwaysRegrouped | bgpgg/src/bgp/bgpls_nlri.rs:655-660 | every order leaves the unknown TLVs as they are if and only if they have one type |
| LsOrders.LastFirstIterates | bgpgg/src/bgp/bgpls_nlri.rs:655-660 | listing every type once, the last one first, is an order a hash map may have |
| LsOrders.TwoTypesExample | bgpgg/src/bgp/bgpls_nlri.rs:700-705 | an input that fails: under that order two unknown types come back swapped |
| LsOrders.ReidentifiedBack | bgpgg/src/bgp/bgpls_nlri.rs:197-202 | a parsed NLRI given a new identifier is read back under every order if and only if its unknown TLVs have one type, above the known ones |
| LsOrders.ReidentifiedFits | bgpgg/src/bgp/bgpls_nlri.rs:197-202 | rewriting the identifier of a parsed NLRI never makes it too long |
| LsOrders.ParsedForm | bgpgg/src/bgp/bgpls_nlri.rs:393-432 | parsed descriptors with one unknown type have the wire form if and only if that type is above the known ones |
| LsOrders.LowTypeExample | bgpgg/src/bgp/bgpls_nlri.rs:473-492 | an input that fails: an unknown type below the known ones is accepted, written after them and then refused |
| LsLengths.ParsedLen | bgpgg/src/bgp/bgpls_nlri.rs:755-792 | parsed descriptors are written in no more bytes than they were read from, duplicates and reordering included |
| LsLengths.ParsedNodeLen | bgpgg/src/bgp/bgpls_nlri.rs:794-816 | the same for a node descriptor |
| LsLengths.ParsedFits | bgpgg/src/bgp/bgpls_nlri.rs:755-792 | so all lengths of parsed descriptors fit their fields |
| LsNlri.IdentifierBack | bgpgg/src/bgp/bgpls_nlri.rs:197-202 | rewriting the identifier keeps everything else; under one given order the result is its own parse if and only if its descriptors have the wire form and the order leaves their unknown TLVs as they are |
| LsNlri.ParseListLoop | bgpgg/src/bgp/bgpls_nlri.rs:295-368 | the cursor loop computes the list |
| LsNlri.WriteListLoop | bgpgg/src/bgp/bgpls_nlri.rs:713-729 | the loop that appends to the buffer computes the written list |
| LsAttr.AttrBack | bgpgg/src/bgp/bgpls_attr.rs:127-219 | a typed TLV is read back, local router identifiers as node TLVs, if and only if it is no IGP metric of four bytes and no unknown of a recognised type |
| LsAttr.WideMetricExample | bgpgg/src/bgp/bgpls_attr.rs:151-197 | an input that fails: an IGP metric of 2^24 is written in four bytes and refused |
| LsAttr.LsAttrBack | bgpgg/src/bgp/bgpls_attr.rs:107-113 | the same for a whole attribute |
| LsAttr.AttrAccepted | bgpgg/src/bgp/bgpls_attr.rs:223-396 | a TLV is accepted if and only if its value is valid for its type |
| LsAttr.LsAttrAccepted | bgpgg/src/bgp/bgpls_attr.rs:89-104 | a byte string is accepted if and only if it splits into individually valid TLVs |
| LsAttr.AttrRewritten | bgpgg/src/bgp/bgpls_attr.rs:127-219 | re-encoding an accepted TLV reproduces it if and only if it is no IGP metric with leading zeros |
| LsAttr.MetricWritten | bgpgg/src/bgp/bgpls_attr.rs:151-197 | a metric is written in its shortest form, in at most three bytes if and only if it is below 2^24 |
| LsAttr.ShortestUnique | bgpgg/src/bgp/bgpls_attr.rs:151-197 | the shortest form of a metric is unique |
| LsAttr.MetricLoop | bgpgg/src/bgp/bgpls_attr.rs:223-396 | the accumulation loop computes the big-endian value |
| LsAttr.AttrLoop | bgpgg/src/bgp/bgpls_attr.rs:428-462 | the cursor loop computes the list of attributes, giving up at the first invalid one |
| EditRuns.RunRefines | ggsh/src/cmd_configure.rs:151-680 | any run of `set` and `unset` commands refines a plain map from key path to value, sets, other services and all statements of a policy included |
| EditRuns.EditRefines | ggsh/src/cmd_configure.rs:151-680 | one command changes the map as its meaning says: last write wins, other keys untouched, and success is decided by the map alone |
| EditWhole.RunDetermined | ggsh/src/cmd_configure.rs:151-680 | a run leaves exactly what the map prescribes: whatever has the map of the run and no repeated block is the result reordered |
| EditWhole.MapDetermines | ggsh/src/cmd_configure.rs:151-680 | two services without repeated blocks have the same map if and only if one is the other reordered, so nothing but order is invisible to the map |
| EditWhole.MapDeterminesRoot | ggsh/src/cmd_configure.rs:660-680 | the same for whole candidates, the other services included |
| EditWhole.RunUnique | ggsh/src/cmd_configure.rs:682-766 | no run repeats a peer, family, policy, prefix list, server or cache |
| EditWhole.EditUnique | ggsh/src/cmd_configure.rs:682-766 | no command does |
| EditWhole.RunSingle | ggsh/src/cmd_configure.rs:151-257 | no run gives a key a second value |
| EditWhole.EditSingle | ggsh/src/cmd_configure.rs:151-257 | no command does |
| EditRuns.StepRepresents | ggsh/src/cmd_configure.rs:151-680 | a command keeps candidate and map in correspondence |
| EditFailures.FailingEdit | ggsh/src/cmd_configure.rs:660-766 | a failing command changes nothing if and only if it is refused before the service is looked up, or the block it would open already exists |
| EditFailures.FailingUnsetExample | ggsh/src/cmd_configure.rs:390-398 | a failing `unset peer` on an empty candidate leaves an empty service behind |
| EditMap.SetTopRefines | ggsh/src/cmd_configure.rs:151-157 | `set` of a global replaces that key only, and fails without effect on a value that does not parse |
| EditMap.OtherTopRefines | ggsh/src/cmd_configure.rs:159-173 | `set originate` and the `unset` of globals change their key only |
| EditMap.SetPeerRefines | ggsh/src/cmd_configure.rs:175-187 | `set peer` creates the peer even when the value does not parse, and changes one setting only |
| EditMap.SetFamilyRefines | ggsh/src/cmd_configure.rs:189-211 | `set peer family` creates peer and family and replaces one directive |
| EditMap.UnsetPeerRefines | ggsh/src/cmd_configure.rs:390-398 | `unset peer` removes everything below the peer and nothing else |
| EditMap.UnsetPeerSettingRefines | ggsh/src/cmd_configure.rs:400-413 | `unset` of a peer setting removes that setting only |
| EditMap.UnsetFamilyRefines | ggsh/src/cmd_configure.rs:415-438 | `unset peer family` removes the family and its directives only |
| EditMap.UnsetDirectiveRefines | ggsh/src/cmd_configure.rs:440-474 | `unset` of a family directive removes that directive only |
| EditMap.SetRuleRefines | ggsh/src/cmd_configure.rs:213-241 | `set policy` replaces one rule; every other rule and all statements stay, in order |
| EditMap.UnsetPolicyRefines | ggsh/src/cmd_configure.rs:476-484 | `unset policy` removes the policy only |
| EditMap.SetEntryRefines | ggsh/src/cmd_configure.rs:243-257 | `set prefix-list` adds an entry but never overwrites one |
| EditMap.UnsetPrefixRefines | ggsh/src/cmd_configure.rs:486-513 | `unset prefix-list` removes a list or one entry only |
| EditMap.BmpRefines | ggsh/src/cmd_configure.rs:259-273 | the BMP commands change one server only |
| EditMap.SetRpkiRefines | ggsh/src/cmd_configure.rs:275-307 | `set rpki-cache` changes one field of one cache |
| EditMap.UnsetRpkiRefines | ggsh/src/cmd_configure.rs:545-580 | `unset rpki-cache` removes a cache or one field |
| EditMap.SetTelemetryRefines | ggsh/src/cmd_configure.rs:320-367 | `set telemetry` changes one sink; JSON and EMF exclude each other |
| EditMap.UnsetTelemetryRefines | ggsh/src/cmd_configure.rs:601-658 | `unset telemetry` removes the block or one part |
| EditCommit.CommitTextParses | ggsh/src/cmd_configure.rs:67-99 | after any run of commands with plain words on a plain candidate, the commit text parses back to the candidate |
| EditCommit.EditKeepsPlain | ggsh/src/cmd_configure.rs:151-680 | a command with plain words keeps the candidate plain |
| EditCommit.SetTopTyped | ggsh/src/cmd_configure.rs:151-157 | typed words that are plain make a plain command |
| EditCommit.SetPeerTyped | ggsh/src/cmd_configure.rs:175-187 | the same for peer settings |
| EditCommit.TypedTop | conf/src/language_bgp.rs:885-929 | what is parsed for a global key is a setting of that key |
| EditCommit.TypedPeer | conf/src/language_bgp.rs:885-929 | what is parsed for a peer key is a setting of that key |
| Commits.CommitAlwaysParses | ggsh/src/cmd_configure.rs:67-99 | over every run of the shell with plain words and however the world answers: whenever there is a candidate, the text a commit would send parses back to it |
| Commits.RunKeepsPlain | ggsh/src/shell.rs:316-363 | every run of plain lines keeps the candidate plain |
| Commits.LineKeepsPlain | ggsh/src/shell.rs:174-264 | one plain line keeps the candidate plain, `configure` with its file included |
| Commits.EditPlain | ggsh/src/shell.rs:174-264 | a command whose arguments are plain words is a plain edit |
| Commits.WalkPlain | ggsh/src/parser.rs:140-214 | the arguments of a command are words of its line |
| Keyed.FindOrInsert | ggsh/src/cmd_configure.rs:682-766 | the `*_mut` helpers return the first element with the key, appended if there was none |
| Keyed.FindAllReplaced | ggsh/src/cmd_configure.rs:786-850 | removing a key and appending its new value leaves that value alone under the key and all values of other keys in order |
| Keyed.SameLeaves | ggsh/src/cmd_configure.rs:786-850 | two lists show the same values under every key if and only if they have the same elements, those of one key in the same order |
| Keyed.BlocksFound | ggsh/src/cmd_configure.rs:682-766 | two lists of blocks without repeated keys show the same under every key if and only if they hold the same blocks |
| EditLoops.Retain | ggsh/src/cmd_configure.rs:369-377 | the `retain` loop removes exactly the elements with the key and keeps the order |
| EditLoops.Position | ggsh/src/cmd_configure.rs:400-406 | the search finds the first element with the key |
| EditLoops.StoreInserted | ggsh/src/cmd_configure.rs:682-695 | writing through a `*_mut` reference replaces the element or appends it |
| EditLoops.EditSettingsLoop | ggsh/src/cmd_configure.rs:369-388 | the global commands as loops compute their function |
| EditLoops.SetPeersLoop | ggsh/src/cmd_configure.rs:175-211 | the `set peer` commands as loops compute their function |
| EditLoops.UnsetPeersLoop | ggsh/src/cmd_configure.rs:400-474 | the `unset peer` commands below a peer as loops compute their function |
| EditLoops.EditPoliciesLoop | ggsh/src/cmd_configure.rs:213-241 | the policy commands as loops compute their function |
| EditLoops.EditPrefixListsLoop | ggsh/src/cmd_configure.rs:486-513 | the prefix-list commands as loops compute their function |
| EditLoops.EditBmpLoop | ggsh/src/cmd_configure.rs:515-543 | the BMP commands as loops compute their function |
| EditLoops.EditRpkiLoop | ggsh/src/cmd_configure.rs:545-580 | the RPKI commands as loops compute their function |
| EditLoops.Candidate.BodyMut | ggsh/src/cmd_configure.rs:660-680 | the service is created if there is none |
| EditLoops.Candidate.Perform | ggsh/src/cmd_configure.rs:151-680 | one command on the candidate, in place, has exactly the effect of its function |
| Grammar.ParseLoop | ggsh/src/parser.rs:140-214 | the loop over tokens computes the walk of the command tree |
| Trees.RootTreeOk | ggsh/src/grammar.rs:167-175 | every command in the root tree gets enough arguments and needs no candidate |
| Trees.ConfigTreeOk | ggsh/src/grammar.rs:177-190 | the same for configure mode |
| Trees.BgpTreeOk | ggsh/src/grammar.rs:192-223 | the same for the service level with all its `set` and `unset` subtrees |
| Trees.WalkFits | ggsh/src/parser.rs:140-214 | any walk of a sound tree ends in a command with enough arguments |
| Trees.LineFits | ggsh/src/parser.rs:140-214 | any accepted line at any level yields a command of that level with an argument for every index the dispatcher uses |
| Shell.LineSafe | ggsh/src/shell.rs:174-264 | an accepted line has its arguments, and a candidate whenever the command unwraps one |
| Shell.LineKeepsValid | ggsh/src/shell.rs:101-131 | a line keeps a live shell valid |
| Shell.RunKeepsValid | ggsh/src/shell.rs:316-363 | every run of lines keeps a live shell valid |
| Shell.AlwaysValid | ggsh/src/shell.rs:91-131 | in every reachable state the stack is one of its three prefixes, and candidate and lock exist exactly in configure mode |
| Shell.ShellObject.Enter | ggsh/src/shell.rs:101-114 | the level is pushed only on its parent |
| Shell.ShellObject.Leave | ggsh/src/shell.rs:116-131 | the level is popped; leaving configure mode drops candidate and lock; leaving the root ends the shell |
| Shell.ShellObject.Configure | ggsh/src/cmd_configure.rs:29-65 | configure mode is entered with the parsed file as candidate, or nothing changes |
| Shell.ShellObject.Commit | ggsh/src/cmd_configure.rs:67-99 | an accepted commit pops to the root and drops candidate and lock; a rejected one changes nothing |
| Shell.ShellObject.Run | ggsh/src/shell.rs:174-264 | one command line on the object computes the step of the state machine and keeps it live |
| Snapshots.SnapshotHistory | conf/src/fs.rs:122-164 | after any number of persists from a clean directory, whatever they write: the main file is the last version written, slot i is the version i before it, and no other slot exists; all succeed if and only if there is a version for each |
| Snapshots.PersistRun | conf/src/fs.rs:122-164 | any run of persists extends the history by what it writes |
| Snapshots.VersionsChain | conf/src/fs.rs:122-142 | each version is the one before it with the service replaced, and a run ends early only at a version that does not parse |
| Snapshots.PlainHistory | conf/src/fs.rs:122-142 | services of plain words are all persisted, and version k is the text of the k-th |
| Snapshots.OldOrNew | conf/src/fs.rs:122-164 | wherever a persist stops, even in the middle of a write or copy, the main file holds the old or the new text |
| Snapshots.PersistHistory | conf/src/fs.rs:122-164 | one persist extends the history by one version |
| Snapshots.Rotated | conf/src/fs.rs:144-164 | rotation shifts every slot by one, drops the last and frees the first |
| Snapshots.PersistedSlot | conf/src/fs.rs:122-142 | after a persist slot 1 is the previous main file and slot i the previous slot i - 1 |
| Snapshots.PersistElsewhere | conf/src/fs.rs:122-164 | a persist touches nothing but the main file, its snapshots and its temporary sibling |
| Snapshots.SlotsDistinct | conf/src/fs.rs:198-219 | different slots have different paths |
| Snapshots.SlotApart | conf/src/fs.rs:198-225 | no slot is the main file or its temporary sibling |
| Snapshots.Disk.RotateSnapshots | conf/src/fs.rs:144-164 | the rotation loop performs exactly the operations in order |
| Snapshots.Disk.PersistServiceConfig | conf/src/fs.rs:122-142 | persisting parses, merges and writes as described |
| Sessions.SessionExclusion | conf/src/fs.rs:62-88 | over every interleaving of shells, crashes and shared holders: at most one shell is in configure mode, it shares with nobody, and the lock file names its UUID |
| Sessions.StepSafe | conf/src/fs.rs:62-88 | every step keeps the locks safe |
| Sessions.RunSafe | conf/src/fs.rs:62-88 | every run keeps the locks safe |
| Sessions.Rejection | conf/src/fs.rs:62-88 | a lock is granted exactly when nobody holds a conflicting one, and a rejected attempt changes nothing |
| Sessions.RejectedLine | ggsh/src/cmd_configure.rs:29-65 | `configure` while somebody holds the lock changes neither the shell nor the lock file |
| Sessions.LineLocks | ggsh/src/cmd_configure.rs:29-99 | only a line that asks for configure mode ever takes the lock |
| Open.OpenBack | bgpgg/src/bgp/msg_open.rs:192-289 | a message is recovered from its encoding if and only if it is well formed |
| Open.DecodeExact | bgpgg/src/bgp/msg_open.rs:192-289 | an accepted body is written again byte for byte if and only if it has at most 265 bytes, every capability code is a known one or 0, and an AS field of 23456 carried 23456 or more than 65535 |
| Open.ParamsWritten | bgpgg/src/bgp/msg_open_types.rs:518-526 | accepted parameters are written again byte for byte if and only if every capability code is a known one or 0 |
| Open.CapabilitiesWritten | bgpgg/src/bgp/msg_open_types.rs:150-180 | the same for the capabilities of one parameter |
| Open.ForgottenCodeExample | bgpgg/src/bgp/msg_open_types.rs:165-180 | an input that fails: a capability with code 9 is written with code 0 |
| Open.TrailingBytesExample | bgpgg/src/bgp/msg_open.rs:205-212 | a body of 266 bytes whose 256 trailing bytes nobody reads is accepted |
| Open.ParamsBack | bgpgg/src/bgp/msg_open_types.rs:518-535 | optional parameters of consistent lengths are read back |
| Open.ParamsRead | bgpgg/src/bgp/msg_open.rs:26-60 | accepted parameters have consistent lengths and cover every byte |
| Open.CapabilitiesBack | bgpgg/src/bgp/msg_open_types.rs:242-250 | capabilities of consistent lengths are read back |
| Open.ParseCapabilityLoop | bgpgg/src/bgp/msg_open.rs:63-87 | the cursor loop over capabilities computes the parse |
| Open.ReadOptionalParameters | bgpgg/src/bgp/msg_open.rs:26-60 | the cursor loop over parameters computes the parse |
| Capabilities.EntriesBack | bgpgg/src/bgp/msg_open_types.rs:371-508 | a decoded list is the encoded one with stale times cut to 24 bits |
| Capabilities.EntryBack | bgpgg/src/bgp/msg_open_types.rs:371-508 | a single tuple is recovered up to that cut |
| Capabilities.CutNothing | bgpgg/src/bgp/msg_open_types.rs:455-479 | nothing is cut if and only if every stale time is below 2^24 |
| Capabilities.DecodeConcat | bgpgg/src/bgp/msg_open_types.rs:388-508 | decoding distributes over concatenation at tuple boundaries |
| Capabilities.UnknownTupleIgnored | bgpgg/src/bgp/msg_open_types.rs:388-508 | a whole tuple with an unknown family or mode at any tuple boundary changes nothing |
| Capabilities.UnknownFamily | bgpgg/src/bgp/msg_open_types.rs:388-508 | an unknown AFI or SAFI makes a tuple unknown |
| Capabilities.RestartBack | bgpgg/src/bgp/msg_open_types.rs:323-452 | a graceful restart capability is recovered, with flags and families, if and only if its time is below 2^12 |
| Capabilities.DecodeLoop | bgpgg/src/bgp/msg_open_types.rs:388-508 | the offset loop computes the decoded list |
| ExtCommunity.NumberBack | bgpgg/src/bgp/ext_community.rs:312-453 | for every 64-bit value but link bandwidth, the formatted text parses, formats to the same text again, and gives the original if and only if it is in normal form |
| ExtCommunity.FormatParses | bgpgg/src/bgp/ext_community.rs:207-309 | parsing the formatted text gives the normal form |
| ExtCommunity.NormalExact | bgpgg/src/bgp/ext_community.rs:207-309 | a value is its own normal form if and only if reserved bytes are zero and four-octet AS numbers exceed 65535 |
| ExtCommunity.SameText | bgpgg/src/bgp/ext_community.rs:312-453 | a value and its normal form have the same text |
| ExtCommunity.BandwidthBack | bgpgg/src/bgp/ext_community.rs:160-170 | link bandwidth survives whenever its number does |
| ExtCommunity.TwoOctetPacked | bgpgg/src/bgp/ext_community.rs:103-110 | the packed bytes of a two-octet community are the shifted fields |
| ExtCommunity.FourOctetPacked | bgpgg/src/bgp/ext_community.rs:121-128 | the same for four-octet AS numbers |
| ExtCommunity.Ipv4Packed | bgpgg/src/bgp/ext_community.rs:112-119 | the same for addresses |
| ExtCommunity.ColorPacked | bgpgg/src/bgp/ext_community.rs:130-136 | the same for colors |
| ExtCommunity.EncapsulationPacked | bgpgg/src/bgp/ext_community.rs:138-144 | the same for encapsulations |
| ExtCommunity.MacPacked | bgpgg/src/bgp/ext_community.rs:146-157 | the same for router MAC addresses |
| ExtCommunity.StatePacked | bgpgg/src/bgp/ext_community.rs:95-101 | the same for RPKI states |
| ExtCommunity.BandwidthPacked | bgpgg/src/bgp/ext_community.rs:160-170 | the same for link bandwidth |
| ExtCommunity.ReservedByteExample | bgpgg/src/bgp/ext_community.rs:312-453 | an input that fails: a color with a reserved byte set comes back without it |
| ExtCommunity.HexBack | bgpgg/src/bgp/ext_community.rs:312-453 | a number printed in enough hexadecimal digits is read back |
| NlriLists.AcceptsExactly | bgpgg/src/bgp/utils.rs:90-171 | a byte string is accepted if and only if it is a concatenation of well-formed entries |
| NlriLists.EntriesWritten | bgpgg/src/bgp/utils.rs:90-171 | every accepted byte belongs to an entry |
| NlriLists.EntriesRead | bgpgg/src/bgp/utils.rs:90-171 | well-formed entries are read in front of any further bytes |
| NlriLists.NeverOutOfBounds | bgpgg/src/bgp/utils.rs:90-171 | without ADD-PATH no bytes make the parser read past the end |
| NlriLists.OutOfBoundsExact | bgpgg/src/bgp/utils.rs:73-100 | with ADD-PATH the parser reads past the end if and only if the bytes are well-formed entries and then exactly a path identifier |
| NlriLists.PathIdOnlyExample | bgpgg/src/bgp/utils.rs:90-100 | an input that fails: a path identifier and nothing after it |
| NlriLists.ListConcat | bgpgg/src/bgp/utils.rs:90-171 | an accepted list followed by more bytes parses to the concatenation |
| NlriLists.NetworksKept | bgpgg/src/bgp/utils.rs:90-132 | exactly the entries with a multicast IPv4 address are dropped |
| NlriLists.NothingDropped | bgpgg/src/bgp/utils.rs:136-171 | no IPv6 entry is dropped |
| NlriLists.ParseLoop | bgpgg/src/bgp/utils.rs:90-171 | the cursor loop computes the list |

## Left out

- gRPC clients, `show` commands, line editing, history and completion: input and output.
- Telemetry sinks, the Prometheus server, the BMP client and the status files: output plumbing.
- UPDATE messages, the peer state machine, the RIB, policy evaluation and RPKI sessions are not part of this model.
- NOTIFICATION, KEEPALIVE and ROUTE-REFRESH messages, plain and large communities: fixed small tables.
- YAML and JSON forms of the configuration, and runtime fields that have no configuration syntax.
- Real UTF-8, IPv6 text, float text and UUID generation: parameters of the model.
- Races inside a lock operation: acquiring and releasing are single steps of `Sessions`.
- `StaleFilter` and the capability constructors of fixed size: easy members.
- File names that are not UTF-8, and failures of single file operations other than stopping half-way.
- RoundTrip.ParsePrinted: one direction only; which unprintable configurations happen to survive is settled word by
  word and line by line (`Layout.BareWordExact`, `Layout.QuotableExact`, `Leaves.SettingReadsExactly`,
  `Leaves.MasklengthReadsExactly`), not for whole files.
- ConfigForms.ConfStrRoundTrip: requires that the rendered configuration is printable, for the same reason.
- LsDescriptors.DescriptorsBack: lengths are required to fit their 16-bit fields, because the writer cuts longer ones;
  what was parsed always fits (`LsLengths.ParsedFits`).
- LsOrders.BuiltAlwaysBack: the same requirement on lengths, for descriptors that were built.
- EditWhole.MapDetermines: requires that no block is repeated, because commands look at the first one only; leaf keys
  may be repeated.
- NlriLists.ParseLoop: requires that the bytes do not end after a path identifier, where the source stops with an
  out-of-bounds index; `NlriLists.OutOfBoundsExact` says exactly which bytes those are.
- ExtCommunity.BandwidthBack: requires that the float survives its own text, which is not modelled.
- LsAttr.AttrBack: requires that a node name survives its own decoding, which is not modelled.
- Parser.Block: the token vector and its position are modelled as the list of remaining tokens.
- LoweringLoops.PeerConfigFromBlock: the runtime structures are values that the loops replace, not shared references.
