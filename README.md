# Streamlit RAG pages in Dafny

A Dafny model of the deterministic layer of a small retrieval-augmented
generation app built from two Streamlit pages.

- **Upload page** (`upload.py`): the MIME type of the uploaded file picks a
  temp-file suffix and a loader (PDF, plain text, or none). When the button
  is pressed, the page takes these steps in order: write the temp file, load,
  split (chunk size 1000, overlap 300), report the chunk count, index every
  chunk into the `clg_notes` collection, remove the temp file.
- **Chat page** (`chat.py`): a non-empty question goes to the vector store's
  similarity search. No results give the warning "No relevant context found
  in the PDF." and no model call. Otherwise each result becomes the
  three-line block `Page Content: …` / `Page Number: …` / `File Location: …`,
  with "N/A" for missing metadata. The blocks are joined by `"\n\n\n"` in
  ranking order and embedded in a fixed system prompt. That prompt is sent to
  `gpt-4.1` with the raw question as the user turn, and the first choice is
  shown.

Files:

- `documents.dfy` (module `Documents`) holds the shared values: `Option` and
  the LangChain `Document`.
- `chat.dfy` (module `Chat`) holds the chat page as pure functions. `Ask`
  returns a `Turn`: the external calls made, in order, and what the page
  shows.
- `upload.dfy` (module `Upload`) holds the dispatch functions and
  `ProcessUpload`, an imperative method. It changes a `Disk` (the temp files)
  and a `Collection` (the stored chunks), and returns the trace of steps it
  took and the outcome.

Outside services are parameters:

- `search` stands for `similarity_search`.
- `complete` stands for the chat-completions call.
- `load` stands for the PDF and text loaders. It returns `None` when the
  loader raises.
- `split` stands for `RecursiveCharacterTextSplitter.split_documents`.
- `reachable` says whether the embedding and Qdrant services answer.
- `tmpPath` is the name `tempfile` picks. It is required to be a new path.

Metadata values are held as the text Python's `str()` gives them. A missing
`page_label` or `source` key shows as "N/A"; a present key shows its stored
value, whatever that value is. A key bound to `None` shows as `None`.

Behaviour of the code that the model keeps:

- After a missing loader, a failing load or a failing index call, the temp
  file stays on disk. `os.remove` (upload.py:75) is the last statement and
  there is no `finally`. `ProcessUpload` states this in its last `ensures`.
- The uploader (upload.py:19) filters by file extension (`.pdf`, `.txt`),
  not by MIME type, so the browser can still report another type, such as an
  empty or vendor-specific one for a `.txt` file. For a type other than
  `application/pdf` or `text/plain`, the loader stays `None` (upload.py:37-44)
  and `loader.load()` (upload.py:47) raises. The model accepts any MIME type
  and has this case as outcome `NoLoader`.
- The chunk count is reported right after splitting (upload.py:58), before
  indexing. Indexing is one `from_documents` call (upload.py:66-71), which
  either completes or raises.

## Model

| member | source | states |
|---|---|---|
| `Chat.PageLabel` | chat.py:47 | The page label is the stored `page_label` value when the key is present, and "N/A" when it is missing. |
| `Chat.SourceOf` | chat.py:48 | The file location is the stored `source` value when the key is present, and "N/A" when it is missing. |
| `Chat.Block` | chat.py:46-48 | A block opens with `Page Content: ` and the content. A line break, `Page Number: ` and the page label follow right after, so a missing label shows as `Page Number: N/A`. The block closes with a line break, `File Location: ` and the source, and adds only the three tags and two line breaks to the three fields. |
| `Chat.Blocks` | chat.py:45-50 | The comprehension gives one block per result, and block i is the block of result i. |
| `Chat.Join` | chat.py:45 | `sep.join(parts)` of no parts is empty. Otherwise it is as long as the parts plus one separator for each neighbouring pair. |
| `Chat.Context` | chat.py:45-50 | The context is empty exactly when there are no results. For n results it is the blocks plus 3·(n−1) separator characters, so one result has no separator. |
| `Chat.ContextLayout` | chat.py:45-50 | Every result's block occurs in the context verbatim, at an offset that grows with its rank. Each block except the first is right after a `"\n\n\n"` separator. Consecutive blocks are exactly one separator apart. |
| `Chat.ContextAppend` | chat.py:45-50 | One result renders as its block alone. Adding a result at the end adds exactly a separator and that result's block, so ranking order is kept. |
| `Chat.BlockRoundTrip` | chat.py:46-48 | A block reads back as the result's page content, page label and source, when label and source are single lines. An absent `page_label` reads back as "N/A" and a present one as its stored value; the same holds for `source`. |
| `Chat.JoinPartAt` | chat.py:45 | `sep.join(parts)` holds each part verbatim at its offset. |
| `Chat.JoinSeparatorBefore` | chat.py:45 | In `sep.join(parts)` the separator sits right before every part but the first. |
| `Chat.JoinAppend` | chat.py:45 | Joining one more part appends one separator and the part; joining a single part gives the part. |
| `Chat.SystemPrompt` | chat.py:53-62 | The prompt starts with the template text and holds the context verbatim right after it. The closing line of the template follows the context. |
| `Chat.PromptRoundTrip` | chat.py:53-62 | The context can be read back out of the system prompt. Different contexts give different prompts. |
| `Chat.Request` | chat.py:65-71 | The request names model `gpt-4.1` and has two messages. The first is a system turn from which the rendered context reads back unchanged. The second is the user turn holding the raw query. |
| `Chat.Ask` | chat.py:33-75 | An empty query makes no call and shows nothing. Otherwise the query is searched first and only once. Empty results make exactly that one call and show the warning. Non-empty results make exactly one more call, a chat call with the request built from those results. The page then shows that call's first choice, unmodified, or the `IndexError` outcome when there is no choice. |
| `Upload.FileType` | upload.py:21-24 | `file_type` is `None` exactly when nothing is uploaded, and otherwise the uploaded file's MIME type. |
| `Upload.Suffix` | upload.py:28 | The suffix is ".pdf" exactly when the type is `application/pdf`. Every other type, and `None`, gives ".txt". |
| `Upload.LoaderFor` | upload.py:37-44 | `application/pdf` selects the PDF loader and `text/plain` the text loader, both ways. Every other type, and `None`, selects no loader. |
| `Upload.SuffixMatchesLoader` | upload.py:28-44 | The temp file gets ".pdf" exactly when the PDF loader will read it. A text-loader file is written as ".txt". |
| `Upload.PageSplitter` | upload.py:50-54 | The splitter has chunk size 1000 and chunk overlap 300, so the overlap is below the chunk size. |
| `Upload.ProcessUpload` | upload.py:30-75 | Processing runs only with a file and a pressed button. The steps are a prefix of write, load, split, report, index, remove. The loader follows `LoaderFor` and reads the bytes written. A missing loader stops after the write; a failing load stops after the load. The split uses the page's splitter. The reported count is the number of chunks, and exactly those chunks are indexed and appended to the collection. Once the index step is reached, indexing succeeds and the temp file is removed exactly when the services answer; an unreachable store stops at the index step. The temp file is removed only after indexing succeeded, and otherwise stays on disk. |
| `Upload.Disk.Write` | upload.py:33-35 | Writing binds the temp path to the uploaded bytes and leaves other files alone. |
| `Upload.Disk.Remove` | upload.py:75 | Removing deletes exactly the temp file. |
| `Upload.Collection.AddDocuments` | upload.py:66-71 | When the services answer, the chunks are appended after what is stored, with no de-duplication. Otherwise the collection is unchanged. |

## Left out

- Page navigation in `streamlit.py`, and the Streamlit UI calls: titles, spinners, the "File type is …" and "Indexed to Qdrant" messages, the answer heading. These only display things. The chunk-count report is kept as a step.
- `load_dotenv`, the OpenAI client and the embedding-model objects: environment and client set-up.
- The vector-store connection `QdrantVectorStore.from_existing_collection` to the `clg_notes` collection (chat.py:24-28). It runs on every run of the chat page, before the empty-query test. It is connection set-up; a failing connection is not modelled, and `search` stands for the connected store.
- Embedding vectors, similarity scores and the library's default top-K. `search` is an opaque function whose results are taken in the order given.
- `RecursiveCharacterTextSplitter`, `PyPDFLoader` and `TextLoader` are library code and are parameters here. The per-chunk size bound, the overlap between chunks, and the page and source metadata the loaders attach are not modelled.
- Ask: does not model a similarity search or chat call that raises (a network or API error); both are total functions here.
- Upload.Collection.AddDocuments: all-or-nothing. A `from_documents` call that fails part-way may leave some chunks stored in Qdrant; that is not modelled.
- Upload.ProcessUpload: `os.remove` is assumed to succeed, and the splitter is assumed not to raise. Streamlit re-runs the script on every interaction; each call of `ProcessUpload` or `Ask` stands for one run.
