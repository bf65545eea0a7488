# Verified models of dbPager and its FastCGI library

This project models, in Dafny, the parts of dbPager in which most can go wrong without being seen, and proves what they are there for. `dafny verify dfyconfig.toml` checks all of it.

**The FastCGI record layer** (`Fcgi*.dfy`; FastCGI Specification 1.0, sections 3.3, 3.4, 5.1, 5.2, 5.3 and 5.5). A writer collects bytes in a fixed buffer, frames them in place as padded records and closes a stream with records of its own; a reader gets the connection in pieces of any size, puts headers together again, skips padding and foreign records and hands out the content. Both are classes over arrays with the stream's own indices and flags. The sizes that the operating system reads and writes at a time are arbitrary (`chunks`, `answers`). What travels is compared with records as values (`FcgiRecord`), what a reader must make of any bytes is a function (`FcgiReader.Run`), and the two meet in `FcgiEndToEnd`: the environment of a web server arrives in the application as it was.

**The script engine.** `TreeBuilder` rebuilds a tree of tags from a flat stream of events in which only depths tell what belongs to what. `Variables` and `Context` are the layered variables and the chain of contexts. `Interpreter` says what a run of a script is, `Runs` what holds of all runs, and `Engine` is the interpreter as the program has it, with methods that change a context, each proved to do what its tag means; `Scripts` says what this comes to for the variables that a script sees, its loops and its definitions. `Transactions` is about exceptions inside try tags. `Threads` is the same interpreter as a machine that does one thing at a time, and `Async` the tag whose children are such machines taking turns. `Html` and `HtmlPrinter` are the printing of html tags by way of placeholder bytes, and `HtmlContent` is what a reader finds in what is printed.

**Single algorithms.** The cache of loaded applications with its lock (`AppCache`), the Boyer-Moore search (`BoyerMoore`), replacing and splitting of strings (`Replace`), the Content-Type field (`ContentType`; section 5.1 of RFC 2045) and the numbering of SQL parameters (`SqlRewrite`).

Each of the source's loops and updating methods is a method, proved against a function on values; the statements about whole runs are lemmas about those functions. Expressions of the script language, the values of error codes, the comparison of variable types, the splitting of name lists and the trimming of strings are parameters, because they are left out or belong to a library that is not in the repository.

## Where the code does not do what one would expect

These are results of the proofs. Each names the exact condition, and where there is one, the lemma with a concrete input.

- An empty record of another request makes the reader pass over the content of the next record, even of its own: `skip` is cleared only where there is content. `FcgiDelivery.DeliveredExactly` says exactly when nothing is lost, `FcgiDelivery.ContentLost` loses a byte.
- A list of parameters that breaks off just behind a pair is accepted like a complete one. `FcgiEndToEnd.Accept` says exactly which requests are accepted and which of them were complete, `FcgiEndToEnd.AcceptCutOff` accepts a broken one.
- Padding is forgotten when the reader turns to another stream, and then read as a header. Behind a start record with padding a request is accepted without its parameters, behind an end of the parameters with padding it has no body. Where the padding does not look like a record itself, nothing is lost exactly if there is no padding or nothing to read (`FcgiEndToEnd.PaddingHarmless`); `FcgiEndToEnd.AcceptPadded` loses a parameter.
- When an exception passes an execute tag, the call it had taken off the stack is not put back, and the handlers further out take off calls that are not theirs. If the exception is caught, a run that ends normally leaves a changed stack (`Runs.CaughtRunLoses`). Whether a run loses a call shows in the run itself (`Runs.StackRestored`); a program with its cases in switches, and with no execute tag and no call under a try that has a catch, but in the catch, never does on a normal end (`Runs.NormalRunRestores`). Which other programs never do is left open.
- The exception by which a case ends its switch is an ordinary one: a try with a catch between the two takes it (`Transactions.CaseLeavesTry`), and the switch may run another case (`Transactions.SecondCaseRuns`).
- Children of an async tag that assign shared variables can see each other's turns (`Async.OrderShows`); those that assign none cannot (`Async.OutputInOrder`).
- The placeholder bytes 1 to 4 in a text or a value come out as quotes and angle brackets (`Html.PrintedOnce`, `Html.BracketForged`).
- '&' is not converted, so that a text in which an entity is written is read as another one (`HtmlContent.DecodedBack`, `HtmlContent.AmpersandLost`).
- A word with a byte above 127 is never found where `char` is signed, because the word is compared as characters and the text as unsigned ones (`BoyerMoore.Find`, `BoyerMoore.HighByteMissed`). Where `char` is unsigned every word is found; both kinds of platform are covered.
- Replacing the empty string does not end (`Replace.EmptyNeverEnds`).
- Splitting a string into several variables keeps the pieces as they were trimmed, not the string (`Replace.TrimmedSpread`, `Replace.BlankLost`).
- In SQL a ':' without a name is taken for '?', and a statement that has a number like "$1" itself cannot be told from one with a marker there (`SqlRewrite.ResultsRestore`, `SqlRewrite.UnnamedLost`, `SqlRewrite.StrayNumber`).

## Model

| member | source | states |
|---|---|---|
| FcgiRecord.AlignInt8 | src/fcgi-2.4.1-SNAP-0910052249/libfcgi/fcgiapp.c:1272-1274 | rounds up to a multiple of 8 by less than 8, for all values for which the 32-bit sum does not wrap |
| FcgiRecord.HeaderRoundTrip | src/fcgi-2.4.1-SNAP-0910052249/libfcgi/fcgiapp.c:1201-1219 | the reader's decoding of a header undoes the writer's encoding for every field that fits |
| FcgiRecord.HeaderLayout | src/fcgi-2.4.1-SNAP-0910052249/libfcgi/fcgiapp.c:1201-1219 | where each field of a header is on the wire, two-byte fields with the most significant byte first |
| FcgiRecord.RecordDetermined | src/fcgi-2.4.1-SNAP-0910052249/libfcgi/fcgiapp.c:1397-1408 | no two records, whatever follows them, give the same bytes: where a record starts, the bytes determine it and what follows it |
| FcgiRecord.ParseEncoded | src/fcgi-2.4.1-SNAP-0910052249/libfcgi/fcgiapp.c:1386-1430 | bytes made of records parse back to exactly these records |
| FcgiWriter.BufferSize | src/fcgi-2.4.1-SNAP-0910052249/libfcgi/fcgiapp.c:1767-1772 | whatever size is asked for, the buffer is a multiple of 8 between 32 and 65536 bytes, so that lengths fit 16 bits and padding fits the buffer |
| FcgiWriter.Framed | src/fcgi-2.4.1-SNAP-0910052249/libfcgi/fcgiapp.c:1397-1408 | what is buffered becomes at most one data record: its content is the bytes, its length a multiple of 8, its padding at most 7 |
| FcgiWriter.Request.WriteItAll | src/fcgi-2.4.1-SNAP-0910052249/libfcgi/fcgiapp.c:1362-1374 | however few bytes each write takes, all bytes are on the wire in order, or failure is reported |
| FcgiWriter.Writer.EmptyBuffProc | src/fcgi-2.4.1-SNAP-0910052249/libfcgi/fcgiapp.c:1386-1430 | the buffer is sealed in place and written: the wire grows by just its record and, when closing, by the closing records |
| FcgiWriter.Writer.WriteCloseRecords | src/fcgi-2.4.1-SNAP-0910052249/libfcgi/fcgiapp.c:1326-1358 | an end-of-stream record unless an error stream was never written, and the end of the request if this is the last writer; both are written raw, the count of writers drops by one |
| FcgiWriter.StatusOnWire | src/fcgi-2.4.1-SNAP-0910052249/libfcgi/fcgiapp.c:1230-1243 | the body of the end of a request has the status as 32 bits, most significant byte first, then the protocol status |
| FcgiWriter.Writer.PutStr | src/fcgi-2.4.1-SNAP-0910052249/libfcgi/fcgiapp.c:310-341 | takes all bytes or none: what was sent in whole data records and what is still buffered together are the old bytes and the new ones |
| FcgiWriter.Writer.PutChar | src/fcgi-2.4.1-SNAP-0910052249/libfcgi/fcgiapp.c:282-293 | the same for one byte |
| FcgiWriter.Writer.FFlush | src/fcgi-2.4.1-SNAP-0910052249/libfcgi/fcgiapp.c:887-893 | nothing stays buffered; on a closed stream nothing happens |
| FcgiWriter.Writer.FClose | src/fcgi-2.4.1-SNAP-0910052249/libfcgi/fcgiapp.c:912-929 | the first call writes what is buffered and the closing records and counts the writer off once; later calls change nothing |
| FcgiRequest.PutKeeps | src/fcgi-2.4.1-SNAP-0910052249/libfcgi/fcgiapp.c:310-341 | writing on either stream keeps what is known of a request in progress: each stream's records carry just its bytes |
| FcgiRequest.CloseKeeps | src/fcgi-2.4.1-SNAP-0910052249/libfcgi/fcgiapp.c:1326-1358 | closing a stream keeps it, and adds the end of the request exactly when no other stream is open |
| FcgiRequest.BothClosed | src/fcgi-2.4.1-SNAP-0910052249/libfcgi/fcgiapp.c:1326-1358 | with both streams closed in any order the wire holds a complete request |
| FcgiRequest.Session.Finish | src/fcgi-2.4.1-SNAP-0910052249/libfcgi/fcgiapp.c:2002-2021 | finishing closes what is open and leaves a complete request, with the last status in the bytes of its end |
| FcgiRequest.RunRequest | src/fcgi-2.4.1-SNAP-0910052249/libfcgi/fcgiapp.c:2002-2021 | for every sequence of writes, flushes, status changes and closes on both streams: exactly one end of request, last, whose bytes read as the last status modulo 2^32 and a complete request; one empty output record behind all output; an empty error record if and only if there was error output; each stream carries its bytes |
| FcgiReader.Reader.FillBuffProc | src/fcgi-2.4.1-SNAP-0910052249/libfcgi/fcgiapp.c:1624-1742 | provides content, closes the stream or reports a request without changing what the stream's bytes mean, whatever pieces they arrive in; it ends on every input |
| FcgiReader.Reader.ProcessHeader | src/fcgi-2.4.1-SNAP-0910052249/libfcgi/fcgiapp.c:1588-1613 | classifies a header: own stream, to be skipped, start of a request, or an error, with the fields the code sets |
| FcgiReader.Reader.ProcessBeginRecord | src/fcgi-2.4.1-SNAP-0910052249/libfcgi/fcgiapp.c:1527-1564 | takes in the first start of a request; a second one is answered with a refusal and skipped; a malformed one is an error |
| FcgiReader.RefusalRead | src/fcgi-2.4.1-SNAP-0910052249/libfcgi/fcgiapp.c:1534-1547 | the answer to a second request is one record that ends that request with status 0 and says that the connection cannot be shared |
| FcgiReader.Reader.GetStr | src/fcgi-2.4.1-SNAP-0910052249/libfcgi/fcgiapp.c:143-181 | delivers the next bytes of the content, fewer than asked for only at the end |
| FcgiReader.Reader.GetChar | src/fcgi-2.4.1-SNAP-0910052249/libfcgi/fcgiapp.c:108-126 | delivers the next byte of the content, or the end |
| FcgiReader.Reader.SetReaderType | src/fcgi-2.4.1-SNAP-0910052249/libfcgi/fcgiapp.c:1845-1857 | starts on another stream at the next unread byte, forgetting padding that is due |
| FcgiDelivery.RunRecords | src/fcgi-2.4.1-SNAP-0910052249/libfcgi/fcgiapp.c:1624-1742 | for all sequences of whole records but those of the connection's management, well-sent or not: what is delivered, how it ends, what is left and what was answered; a malformed start or an own record of another kind has the effect of a broken connection |
| FcgiDelivery.DeliveredExactly | src/fcgi-2.4.1-SNAP-0910052249/libfcgi/fcgiapp.c:1649-1662 | what is delivered is all content of the own records up to the first empty one, if and only if no own content stands directly behind an empty foreign record |
| FcgiDelivery.ContentLost | src/fcgi-2.4.1-SNAP-0910052249/libfcgi/fcgiapp.c:1649-1662 | three records with which the only byte of content is lost |
| FcgiDelivery.RunBegin | src/fcgi-2.4.1-SNAP-0910052249/libfcgi/fcgiapp.c:1527-1564 | a start record is read to its last byte, with its padding left in front of what follows |
| FcgiDelivery.ReadToEnd | src/fcgi-2.4.1-SNAP-0910052249/libfcgi/fcgiapp.c:108-181 | reading by bytes or in pieces of any sizes gives the whole content |
| FcgiDelivery.RunPadded | src/fcgi-2.4.1-SNAP-0910052249/libfcgi/fcgiapp.c:1845-1857 | padding left over in front of another stream is taken for a header: nothing is read and the version is refused |
| FcgiDelivery.ReadStream | src/fcgi-2.4.1-SNAP-0910052249/libfcgi/fcgiapp.c:1624-1742 | accepting a request and reading a stream through any pieces and sizes gives what `RunRecords` says, or nothing behind a start record with padding, and the error that fits; without padding all content exactly if none stands behind an empty foreign record |
| FcgiParams.LengthRoundTrip | src/fcgi-2.4.1-SNAP-0910052249/libfcgi/fcgiapp.c:1144-1170 | a length below 2^31 is read back from its one or four bytes |
| FcgiParams.LengthLayout | src/fcgi-2.4.1-SNAP-0910052249/cgi-fcgi/cgi-fcgi.c:556-582 | a length below 128 is its byte, another one is four bytes, most significant first, with the highest bit set |
| FcgiParams.BuildNameValueHeader | src/fcgi-2.4.1-SNAP-0910052249/cgi-fcgi/cgi-fcgi.c:556-582 | the buffer holds the encodings of both lengths |
| FcgiParams.PairsRoundTrip | src/fcgi-2.4.1-SNAP-0910052249/libfcgi/fcgiapp.c:1138-1190 | decoding recovers every list of encoded pairs, in order |
| FcgiParams.Params.Put | src/fcgi-2.4.1-SNAP-0910052249/libfcgi/fcgiapp.c:1076-1088 | appends one entry and keeps all others through the growth of the vector |
| FcgiParams.Params.GetParam | src/fcgi-2.4.1-SNAP-0910052249/libfcgi/fcgiapp.c:1103-1118 | the value of the first entry with the name |
| FcgiParams.LookupEntries | src/fcgi-2.4.1-SNAP-0910052249/libfcgi/fcgiapp.c:1103-1118 | for names without '=' this is the value of the first pair with the name |
| FcgiParams.ReadParams | src/fcgi-2.4.1-SNAP-0910052249/libfcgi/fcgiapp.c:1138-1190 | stores the entries that the stream's content decodes to, and fails exactly if it breaks off inside a pair; when it does not fail, the stream's error says whether the stream had ended |
| FcgiEndToEnd.EntriesOfPairs | src/fcgi-2.4.1-SNAP-0910052249/cgi-fcgi/cgi-fcgi.c:819-835 | splitting each string at its first '=' and joining it again changes nothing |
| FcgiEndToEnd.SendEnvironment | src/fcgi-2.4.1-SNAP-0910052249/cgi-fcgi/cgi-fcgi.c:815-836 | sends the pairs as parameter records and closes the stream |
| FcgiEndToEnd.RunSentPairs | src/fcgi-2.4.1-SNAP-0910052249/libfcgi/fcgiapp.c:1624-1742 | a reader gets the encoded pairs, to the last byte, from what was sent |
| FcgiEndToEnd.Accept | src/fcgi-2.4.1-SNAP-0910052249/libfcgi/fcgiapp.c:2179-2257 | for all records behind the start of a request, with or without padding, a request is accepted if and only if its role is known and the content that is read breaks off at most behind a pair; it has the role entry and the entries in order; it was complete if and only if its stream has no error; the reader is left at what follows the parameters |
| FcgiEndToEnd.AcceptBody | src/fcgi-2.4.1-SNAP-0910052249/libfcgi/fcgiapp.c:2251-2256 | the body of an accepted request is what the records behind its complete parameters deliver, or nothing if the record that ends the parameters has padding |
| FcgiEndToEnd.PaddingHarmless | src/fcgi-2.4.1-SNAP-0910052249/libfcgi/fcgiapp.c:1845-1857 | padding that does not look like a record leaves the parameters, or a body, as they were if and only if there is none of it or nothing to read |
| FcgiEndToEnd.PairBehindPadding | src/fcgi-2.4.1-SNAP-0910052249/libfcgi/fcgiapp.c:1845-1857 | a list with one pair that decodes to it without padding in front, and to nothing with eight zeros in front |
| FcgiEndToEnd.AcceptPadded | src/fcgi-2.4.1-SNAP-0910052249/libfcgi/fcgiapp.c:2231-2232 | a request with this list behind a start record with padding is accepted with no parameter, and its stream has an error |
| FcgiEndToEnd.CutOffPair | src/fcgi-2.4.1-SNAP-0910052249/libfcgi/fcgiapp.c:1138-1190 | one record with a whole pair and no end: decoded without fault, and not complete |
| FcgiEndToEnd.AcceptCutOff | src/fcgi-2.4.1-SNAP-0910052249/libfcgi/fcgiapp.c:2232-2238 | a request of which this record is all is accepted, with a protocol error on its stream |
| FcgiEndToEnd.Transmit | src/fcgi-2.4.1-SNAP-0910052249/libfcgi/fcgiapp.c:1138-1190 | for every environment of named strings, all buffer sizes and all ways in which writes and reads split the bytes, but for the start record, which the sender requires to go in one write, the application has exactly these strings, in order |
| TreeBuilder.CollapsedOnce | src/libdbpager/tag_impl.cpp:47-61 | collapsing white space a second time changes nothing, and only white space is lost |
| TreeBuilder.SetText | src/libdbpager/tag_impl.cpp:47-61 | what is left has the same words, with single blanks between them and nothing else that is white space, and a blank at an end exactly where there was white space |
| TreeBuilder.WordsKept | src/libdbpager/tag_impl.cpp:47-61 | collapsing neither joins words nor parts them |
| TreeBuilder.CollapsedSpaced | src/libdbpager/tag_impl.cpp:47-61 | which white space is left, also behind a blank that has just been written |
| TreeBuilder.UpBelow | src/dbpager/parser/dbpx_parser.cpp:108-135 | from a tag at or below an open element, walking up by the difference of depths reaches that element |
| TreeBuilder.PlaceBelow | src/dbpager/parser/dbpx_parser.cpp:108-135 | while the current tag is at or below the innermost open element, a child of that element is put under it and nowhere else |
| TreeBuilder.BuildOne | src/dbpager/parser/dbpx_parser.cpp:137-228 | the events of any element, text or comment add its tree under the open element, change nothing else and keep the invariant, with or without an end event |
| TreeBuilder.DocumentRebuilt | src/dbpager/parser/dbpx_parser.cpp:57-106 | every well-formed document is rebuilt exactly, children in order and texts with white space collapsed, and never refused as badly nested |
| TreeBuilder.Parser.MakeRelationship | src/dbpager/parser/dbpx_parser.cpp:108-135 | the comparison of depths and the loop over ancestors link a tag to the place its depth gives, or refuse it |
| TreeBuilder.Parser.ProcessNode | src/dbpager/parser/dbpx_parser.cpp:137-228 | one event changes the tags, the root and the current tag as the step function says |
| TreeBuilder.Parser.Parse | src/dbpager/parser/dbpx_parser.cpp:57-106 | the read loop runs all events |
| TreeBuilder.ParseDocument | src/dbpager/parser/dbpx_parser.cpp:57-106 | a fresh parser makes of a document's events the document's tree |
| Variables.FlatView | src/libdbpager/context.cpp:48-71 | the flat view has exactly the names bound in some layer, each with the value that lookup gives, in any case of letters |
| Variables.SameVariable | src/libdbpager/context.cpp:48-51 | two names are those of one variable if and only if they differ in nothing but the case of the letters from a to z |
| Variables.SetChangesInnermost | src/libdbpager/context.cpp:73-89 | setting changes the innermost binding along the chain of parents and nothing else; it is refused exactly if there is none |
| Variables.SetThenGet | src/libdbpager/context.cpp:48-89 | afterwards the name has the value and every other name has its old one |
| Variables.AddedToLayer | src/libdbpager/context.cpp:39-103 | a variable added to a new layer is found there, hides no other, and is gone with the layer |
| Contexts.Context.GetValue | src/libdbpager/context.cpp:48-61 | the loop over layers and the parents find the innermost binding |
| Contexts.Context.GetValues | src/libdbpager/context.cpp:63-71 | whatever the order of the variables in a layer, the result is the flat view |
| Contexts.Context.SetValue | src/libdbpager/context.cpp:73-89 | changes the chain as `SetChangesInnermost` says, or reports the missing variable and changes nothing |
| Contexts.Context.AddValue | src/libdbpager/context.cpp:91-103 | binds the name in the top layer of the first context of the wanted type, or reports an unknown type |
| Contexts.Context.Enter | src/libdbpager/context.cpp:39-41 | adds an empty layer |
| Contexts.Context.Leave | src/libdbpager/context.cpp:43-46 | drops the top layer |
| Contexts.Context.Push | src/libdbpager/context.cpp:111-113 | puts a call on the stack |
| Contexts.Context.Pop | src/libdbpager/context.cpp:115-121 | takes the last call off the stack, or none from an empty one |
| Interpreter.Exec | src/libdbpager/tag_impl.cpp:67-72 | every run of every program, whatever way it ends, leaves the local context with its layers and the names in each; parents keep their layers and may gain names in the top one only |
| Interpreter.Start | src/libdbpager/tag_usr.cpp:43-68 | whatever a tag prepares, either it ends with the layers and names as they were, or just the layer it opened is new |
| Interpreter.Next | src/libdbpager/tag_usr.cpp:68-83 | on every way out of a tag its layer is gone |
| Runs.FuelIrrelevant | src/libdbpager/tag_impl.cpp:67-72 | a run that ends within a bound on nested steps is the same within every larger bound |
| Runs.StackRestored | src/dbpager/tag/tag_execute.cpp:37-52 | a run that loses no call restores the call stack, on normal ends and on exceptions; on a stack deeper than the run's bound a run that loses one does not; and until one is lost, each block runs with the stack of its call |
| Runs.NormalRunRestores | src/libdbpager/tag_usr.cpp:66-89 | in a program whose cases stand in switches only, and which under a try that has a catch has no execute tag and no call but in the catch, a call is lost only if the run ends with an exception that is not a case's; every normally ending run restores the stack, and every block ran with the stack of its call |
| Runs.CaughtRunLoses | src/dbpager/tag/tag_execute.cpp:37-52 | a program whose run ends normally with a call missing from the stack |
| Runs.TryAllOrNothing | src/dbpager/tag/tag_try.cpp:34-56 | the output of a try is all of its body's, or none of it and just its catch's |
| Transactions.SpoiledExec | src/dbpager/tag/tag_try.cpp:34-56 | over whole runs: if what a body had written when it raised is replaced by any text, in every try at any depth, the run is the same, in its output, its variables, its stack and its end |
| Transactions.CaseLeavesTry | src/dbpager/tag/tag_try.cpp:48-55 | the exception of a case leaves a try if and only if the try has no catch or the catch raises it again |
| Transactions.SecondCaseRuns | src/dbpager/tag/tag_switch.cpp:32-48 | a switch that runs a second case behind a try in which a case had matched |
| Runs.OneCaseRuns | src/dbpager/tag/tag_case.cpp:31-38 | of any number of cases only the first that matches runs |
| Runs.SwitchRunsOneCase | src/dbpager/tag/tag_switch.cpp:32-48 | a switch over cases gives the output of its first matching case, swallows just the exception that ends it, and leaves the variables as they were if none matches |
| Engine.FindDefinition | src/libdbpager/tag_usr.cpp:57-60 | the walk over parents finds the definition in scope |
| Engine.GetChild | src/libdbpager/tag_impl.cpp:92-97 | the loop finds the first child with the name |
| Engine.GetParameter | src/libdbpager/tag_impl.cpp:106-114 | evaluates the parameter, or gives the empty string if it is missing |
| Engine.RunChildren | src/libdbpager/tag_impl.cpp:67-71 | the loop over the children stops at the first exception |
| Engine.RunBody | src/libdbpager/tag_impl.cpp:67-72 | the children's output, then the text |
| Engine.ExecuteExpression | src/dbpager/tag/tag_expression.cpp:37-39 | the value of the text is the output |
| Engine.ExecuteVar | src/dbpager/tag/tag_var.cpp:31-53 | refines the meaning of the tag: declared names, body, layer left on every way out |
| Engine.ExecuteSet | src/dbpager/tag/tag_set.cpp:33-44 | refines the meaning: the body's output becomes the value, nothing is written |
| Engine.ExecuteSwitch | src/dbpager/tag/tag_switch.cpp:32-48 | refines the meaning |
| Engine.ExecuteCase | src/dbpager/tag/tag_case.cpp:31-38 | refines the meaning: a case that matches ends by its exception |
| Engine.ExecuteTry | src/dbpager/tag/tag_try.cpp:34-56 | refines the meaning: held-back output, dispatch to the catch |
| Engine.ProcessException | src/dbpager/tag/tag_catch.cpp:31-66 | both ways of catching: the error's variables in a new layer, the body, the layer left on every way out |
| Engine.ExecuteThrow | src/dbpager/tag/tag_throw.cpp:31-44 | refines the meaning: the message from the parameter or the body, an exception with a code if there is one |
| Engine.ExecuteWhile | src/dbpager/tag/tag_while.cpp:31-36 | the loop is as many rounds as the meaning has |
| Engine.ExecuteUsr | src/libdbpager/tag_usr.cpp:43-83 | refines the meaning of a custom tag: parameters in a new layer, the linked definition or the one in scope, the call on the stack while it runs |
| Engine.ExecuteCallByName | src/dbpager/tag/tag_call.cpp:34-77 | the same for a computed name, which is evaluated outside the layer |
| Engine.ExecuteDefinition | src/libdbpager/tag_tag.cpp:48-53 | a definition runs only for a caller that is a custom tag |
| Engine.ExecuteBlock | src/dbpager/tag/tag_execute.cpp:37-52 | refines the meaning: the call is taken off, its block or named part runs, the call is put back unless an exception passes |
| Engine.Execute | src/libdbpager/tag_impl.cpp:67-72 | running a tag of any kind changes the context, writes and ends as the meaning of the program says |
| Threads.TagSolo | src/libdbpager/tag_impl.cpp:67-72 | the step-by-step machine, run alone, ends every tag with the state, the output and the exception of its meaning |
| Threads.StartSolo | src/libdbpager/tag_usr.cpp:43-68 | the steps by which a tag prepares, one variable in a step, come to what its preparation means |
| Threads.NextSolo | src/dbpager/tag/tag_try.cpp:34-56 | the steps behind what a tag contains come to what its ending means, with the variables of a catch and those that are assigned one in a step |
| Threads.StepParents | src/libdbpager/context.cpp:73-103 | a step changes nothing of the parents of a context unless it assigns a variable of theirs |
| Scripts.CallSees | src/libdbpager/tag_usr.cpp:46-83 | for both ways of calling: the definition that runs is the linked one or the one in scope; it sees each parameter with the value its text has behind the parameters before it, unless a later one has the same name, and every other variable as the caller does |
| Scripts.VarSees | src/dbpager/tag/tag_var.cpp:31-53 | each name is bound in the first context of its type, in front of those further out; where these are the context's own, the body sees each name with its value and every other variable as it was |
| Scripts.SetHolds | src/dbpager/tag/tag_set.cpp:33-44 | after a set that ends normally each of its names has the body's output as its value, every other variable its own, and nothing is written |
| Scripts.ThrowRaises | src/dbpager/tag/tag_throw.cpp:31-44 | which exception a throw raises, with which message and which code |
| Scripts.CatchSees | src/dbpager/tag/tag_catch.cpp:31-66 | a catch sees the message, the code if there is one, and every other variable as the body left it |
| Scripts.WhileRounds | src/dbpager/tag/tag_while.cpp:31-36 | a loop that ends normally ran its body as long as its test was "1" and not longer, and wrote what the rounds wrote |
| Scripts.ExpressionWrites | src/dbpager/tag/tag_expression.cpp:37-39 | an expression writes its value and changes nothing |
| Scripts.BodyRuns | src/libdbpager/tag_impl.cpp:67-72 | children run in order, each from where the one before it ended; what they write comes in this order, and the text behind it |
| Scripts.BlockWrites | src/dbpager/tag/tag_execute.cpp:37-52 | an execute tag writes what the block of the last call writes, or the named part of it, running without that call on the stack |
| Scripts.DefinitionWaits | src/libdbpager/tag_tag.cpp:48-53 | a definition does nothing where it stands and runs for a call |
| Scripts.ScopedNearest | src/libdbpager/tag_usr.cpp:57-60 | the definition in scope is that of the nearest tag, here or further out, that has one |
| Scripts.ChildFirst | src/libdbpager/tag_impl.cpp:91-97 | the child of a name is the first that has it |
| Async.NoInterference | src/dbpager/tag/tag_async.cpp:43-54 | in every interleaving of scripts none of which ever assigns a shared variable, each is where it would be alone after its own steps, and what they share is unchanged |
| Async.ChildAlone | src/dbpager/tag/tag_async.cpp:44-53 | a child's thread alone ends with the output of the child's meaning, or without output if that raises |
| Async.OutputInOrder | src/dbpager/tag/tag_async.cpp:40-58 | for every interleaving of such children, once all have ended, the outputs are those of their meanings in the order of the children, a failing child adding nothing |
| Async.AllEnd | src/dbpager/tag/tag_async.cpp:40-58 | each child needs a number of turns of its own to end, whatever the others do |
| Async.LocalReader | src/dbpager/tag/tag_async.cpp:44-46 | in a program without set tags and without types on its variables no child ever assigns a shared variable |
| Async.OrderShows | src/dbpager/tag/tag_async.cpp:43-54 | for one child that sets a shared variable and one that writes it, two interleavings give different outputs |
| Basics.ConcatInOrder | src/dbpager/tag/tag_async.cpp:55-57 | writing one part behind the other puts what comes first first |
| Async.RunChild | src/dbpager/tag/tag_async.cpp:44-53 | a child runs in a new local context on top of the shared ones and has no output if it raises; the shared ones are as before if it only reads them |
| Async.ExecuteAsync | src/dbpager/tag/tag_async.cpp:40-58 | threads are started, take any turns and are drained in the order of the children: if all have ended and only read what they share, the output is that of their meanings |
| Html.InnermostCounts | src/dbpager/tag/tag_unknown.cpp:30-74 | a conversion does nothing to what has been converted, so that each text is escaped once |
| Html.TagConverted | src/dbpager/tag/tag_unknown.cpp:117-181 | what the conversion of an enclosing tag reaches in a printed tag: the texts and raw attributes right inside it |
| Html.PrintedOnce | src/dbpager/tag/tag_unknown.cpp:98-181 | for all trees of tags, texts, attributes and character data, the placeholder printing is that of a one-pass printer if and only if no printed value has a byte from 1 to 4 in it |
| Html.BracketForged | src/dbpager/tag/tag_unknown.cpp:76-96 | a text with the byte 3 in it is printed with an angle bracket |
| Html.StructureRecovered | src/dbpager/tag/tag_unknown.cpp:117-181 | from what an ordinary tree prints, reading from bracket to bracket with a stack gives back the nested element names |
| Html.OnlyMarkup | src/dbpager/tag/tag_unknown.cpp:117-181 | in what an ordinary tree prints through the placeholders there are as many angle brackets as marks of elements and as many quotes as printed attributes need: texts and values have none |
| HtmlContent.DecodedBack | src/dbpager/tag/tag_unknown.cpp:30-51 | reading the four entities as characters gives a converted text back if and only if none of them is written in it |
| HtmlContent.AmpersandLost | src/dbpager/tag/tag_unknown.cpp:30-51 | a text with an entity written in it is read as another one |
| HtmlContent.ContentRecovered | src/dbpager/tag/tag_unknown.cpp:117-181 | what an ordinary tree prints is read as its elements, the names and values of its attributes, and its texts, if and only if no entity is written in a text or value |
| HtmlContent.AsIsFirst | src/dbpager/tag/tag_unknown.cpp:121-126 | a tag is printed as it is if and only if the first parameter of that name is "1" |
| HtmlContent.TextAsIs | src/dbpager/tag/tag_unknown.cpp:121-170 | the text of such a tag is printed with its brackets and quotes |
| HtmlPrinter.Htmlentities | src/dbpager/tag/tag_unknown.cpp:30-51 | the loop converts each character; a reader of entities gets the text back if and only if none was written in it |
| HtmlPrinter.Stub | src/dbpager/tag/tag_cdata.cpp:29-50 | the loop puts placeholders for the four characters |
| HtmlPrinter.Htmlentitiesout | src/dbpager/tag/tag_unknown.cpp:76-96 | the loop puts the characters back |
| HtmlPrinter.Execute | src/dbpager/tag/tag_unknown.cpp:98-115 | the outermost tag turns placeholders into characters, and the context is as before |
| HtmlPrinter.RealExecute | src/dbpager/tag/tag_unknown.cpp:117-181 | prints one tag inside the root |
| HtmlPrinter.PrintRoot | src/dbpager/tag/tag_unknown.cpp:98-181 | a root tag comes out as the one-pass printer has it, and a reader finds its elements, attributes and texts in it, if and only if no entity is written in them |
| AppCache.StepKeeps | src/dbpager/interpreter/interpreter.cpp:143-163 | every step of every thread keeps: one holder of the lock, who knows whether the address is missing; the log of insertions agrees with the cache |
| AppCache.OneAppPerUrl | src/dbpager/interpreter/interpreter.cpp:143-163 | for any number of threads, all interleavings and all failures: one insertion per address, entries never change, all answers for an address are the inserted application |
| AppCache.NoDeadlock | src/dbpager/interpreter/interpreter.cpp:153-161 | while a thread is in a call some thread in a call can go on |
| AppCache.Interpreter.GetApp | src/dbpager/interpreter/interpreter.cpp:143-163 | a call that no other disturbs looks up, locks, looks up again, builds, inserts and unlocks, as the turns of such a run; without the cache it builds a new application and changes nothing |
| BoyerMoore.SkipsNone | src/mimetic/mimetic/utils.h:66-71 | no start that a shift skips is an occurrence |
| BoyerMoore.Shifts | src/mimetic/mimetic/utils.h:55-59 | the table has each byte's distance from the end of the word |
| BoyerMoore.FindBm | src/mimetic/mimetic/utils.h:47-75 | the first occurrence or the end; where `char` is signed a word with a byte above 127 is never found; all accesses are in range and the loops end |
| BoyerMoore.Find | src/mimetic/mimetic/utils.h:84-89 | the answer is right if and only if `char` is unsigned, the word is 7-bit or it does not occur |
| BoyerMoore.HighByteMissed | src/mimetic/mimetic/utils.h:66 | a byte that is missed where `char` is signed |
| Replace.SplitThenJoin | src/dbpager/tag/tag_split.cpp:41-46 | joining the pieces with the separator gives the string back |
| Replace.PiecesWithout | src/dbpager/tag/tag_split.cpp:41-46 | no piece has the separator in it |
| Replace.ReplaceWith | src/dbpager/tag/tag_substr.cpp:31-38 | for every search string that is not empty the editing in place ends and is the join of the pieces with the replacement |
| Replace.EmptyNeverEnds | src/dbpager/tag/tag_substr.cpp:31-38 | for the empty search string the loop finds it again after any number of rounds |
| Replace.Split | src/dbpager/tag/tag_split.cpp:41-46 | the loop cuts just these pieces and trims each |
| Replace.Distribute | src/dbpager/tag/tag_split.cpp:85-104 | the loops that add a variable for each name and append what remains to the last one, in the context and with any names |
| Replace.EachVariable | src/dbpager/tag/tag_split.cpp:85-104 | with different names, each variable has one piece and the last one all that remain, joined by the separator |
| Replace.SpreadKeeps | src/dbpager/tag/tag_split.cpp:85-104 | however many variables there are, joining them gives what joining the pieces gives |
| Replace.TrimmedSpread | src/dbpager/tag/tag_split.cpp:41-46 | joining the variables gives the trimmed pieces joined, and the string itself if and only if trimming takes nothing from any piece |
| Replace.BlankLost | src/dbpager/tag/tag_split.cpp:41-46 | "a, b" split at commas is "a" and "b", which together are "a,b" |
| ContentTypes.Tokenizer.Next | src/mimetic/mimetic/tokenizer.h:99-112 | the token up to the next delimiter, and no empty token behind the last one |
| ContentTypes.RemoveExternalBlanks | src/mimetic/mimetic/strutils.h:148-163 | the two loops cut blanks and nothing else off both ends, and leave none there |
| ContentTypes.TrimAround | src/mimetic/mimetic/strutils.h:148-163 | blanks around a text are all that is cut off |
| ContentTypes.ParsedIsProper | src/mimetic/mimetic/contenttype.cxx:141-168 | whatever is parsed, types have no '/' or ';', names no '=' or ';' or outer blanks, values no ';' |
| ContentTypes.RoundTrip | src/mimetic/mimetic/contenttype.cxx:141-178 | a fresh field set from what a field prints equals it if and only if it is of this form |
| ContentTypes.SpeltIsParsed | src/mimetic/mimetic/contenttype.cxx:141-168 | a field is read as its type, subtype and parameters however these are written: with values in quotes or not, and with any blanks around names and values |
| ContentTypes.PrintedSpelt | src/mimetic/mimetic/contenttype.cxx:170-178 | what is printed is one of these spellings: a blank before each name and quotes around each value |
| ContentTypes.ContentType.Set | src/mimetic/mimetic/contenttype.cxx:141-168 | parses type, subtype and parameters, adding to the parameters that are there |
| ContentTypes.ContentType.Print | src/mimetic/mimetic/contenttype.cxx:170-178 | prints the field |
| ContentTypes.ContentType.NewParam | src/mimetic/mimetic/fieldparam.cxx:19-32 | the scan for '=' and the removal of blanks and quotes |
| ContentTypes.SetThenGet | src/mimetic/mimetic/contenttype.cxx:83-106 | after a parameter is set it has the value under its name in any case, and others have their old ones |
| SqlRewrite.Parse | src/modules/dbp_pgsql/tag_query.cpp:137-185 | the statement is texts with its markers between them, each '?' or ':' with the name of its parameter; what is returned is the same texts, and between them '$' with a decimal that reads as 1, 2, ... in order, one for each parameter |
| SqlRewrite.DecimalRead | src/modules/dbp_pgsql/tag_query.cpp:155-173 | the digits of a number read back as the number and have no leading zero |
| SqlRewrite.OneParameterEach | src/modules/dbp_pgsql/tag_query.cpp:155-177 | there are as many parameters as markers outside quotes |
| SqlRewrite.RestoresStatement | src/modules/dbp_pgsql/tag_query.cpp:137-185 | putting the markers back gives the statement if and only if each ':' outside quotes has a name |
| SqlRewrite.ResultsRestore | src/modules/dbp_pgsql/tag_query.cpp:137-185 | from the returned string and names alone the statement is got back if and only if each ':' outside quotes has a name and the statement has none of the numbers itself where the next one is awaited |
| SqlRewrite.UnnamedLost | src/modules/dbp_pgsql/tag_query.cpp:163-173 | a statement whose two ':' become '?' |
| SqlRewrite.StrayNumber | src/modules/dbp_pgsql/tag_query.cpp:155-159 | a statement with a number of its own that is taken for a marker |

## Left out

- FcgiReader.Reader.FillBuffProc: does not model management records, at which the modelled run ends, and failing reads; a read gives at least one byte or the end.
- FcgiReader.Reader.ProcessHeader: does not model the reply to a management record (request id 0).
- FcgiReader.Reader.ProcessBeginRecord: does not model a failing write of the refusal of a second request; it is always sent.
- FcgiDelivery.RunRecords: does not say what follows a management record among the records.
- FcgiEndToEnd.Accept: is one connection; the repetition of FCGX_Accept_r on the next one is not modelled.
- FcgiEndToEnd.AcceptBody: does not say what is read as the body when the parameters were not complete or the start record had padding.
- FcgiEndToEnd.PaddingHarmless: is about padding that does not begin with the byte 1, as zeros do not; other padding may be a record itself and is read as one (`FcgiEndToEnd.Accept` covers it).
- Writes of zero bytes, sizes beyond the range of int in the allocation of parameters, and running out of memory.
- FCGX_VFPrintF and the other thin output functions, FCGX_UnGetChar, FCGX_GetLine.
- The event loop of cgi-fcgi, sockets and signals.
- TreeBuilder.Parser.ProcessNode: does not model attributes, include tags and elements of the ITS namespace, whose depths do not follow the document, tags unknown to the factory, and errors of the XML reader.
- TreeBuilder.Parser.MakeRelationship: refuses a tag whose place lies above the root, where the code would follow a null reference; no well-formed document has one.
- Tags are records in a sequence and refer to each other by number, not objects linked by references; no tag is shared or freed.
- Engine.ExecuteExpression: does not model the evaluation of expressions, and so custom tags called from within one; the value of an expression depends on the variables only.
- Interpreter.Exec: is bounded by the number of nested steps; a run without an end exceeds every bound, and `Runs.FuelIrrelevant` says that no other run depends on it.
- Runs.StackRestored: its condition is read off the run; the converse needs a stack that does not run empty, because on a shallow one a loss can go unnoticed.
- Runs.NormalRunRestores: is stated one way only; a program that catches exceptions around calls may still restore the stack in all its runs.
- Async.OutputInOrder: is about one async tag whose children have no async tag in them; what a script with async tags among its other tags means is not modelled as one run.
- Runs.TryAllOrNothing: is about one try; what holds over whole runs is `Transactions.SpoiledExec`.
- Threads.TagSolo: takes the evaluation of an expression and the search for a variable as one step each; threads that assign nothing cannot tell.
- Custom tags that find their definition in another tree, and scripts that change while they run.
- The order in which a hash table gives parameters and variables: parameters come in one order, which is arbitrary.
- HtmlPrinter.Execute: is given the values of parameters and texts; an evaluation that raises an exception while printing is not modelled.
- HtmlPrinter.RealExecute: is given the values of parameters and texts too.
- AppCache.OneAppPerUrl: a lookup or an insertion is one step; the code looks up without the lock.
- Characters above 127 in SQL names and in delimiters, where the C library's answers are undefined.
- The branches of tag_split for one name, which run their children once for each piece.
- Databases, directories, sessions, scripting, HTTP, JSON, regular expressions and file tags: they wrap libraries that are not in the repository.
