# Chunked SOCKS downloader — Dafny model

A model of `download.py`, a script that downloads one large file over HTTP
in 1 MiB (2^20-byte) byte-range chunks, each request going through one of a
pool of local SOCKS5 proxy ports. The model covers:

- the port pool (`Port`, `PortManager`): a list of ports with busy flags;
  leasing takes the first free port in list order, returning clears one flag;
- size discovery (`get_file_size`): Content-Length of a HEAD reply (0 when
  absent), or else the total after the last `/` of the Content-Range of a
  GET for `bytes=0-0`, or `None`; and `main`'s rejection of `None`, 0 and
  negative sizes;
- the chunk plan of `main`: `ceil(size / 2^20)` chunks, the inclusive range
  of chunk `i`, and the expected size of its progress file;
- `download_chunk`: at most `MAX_RETRIES` (5) ranged GETs, a body kept only
  when its length is exactly the range's length, the progress file written,
  the leased port returned on both exits;
- `main`'s loops: skip a chunk whose progress file already has the expected
  size, otherwise fetch it; then verify every progress file; then
  concatenate them in index order into the output and remove them.

Files: `common.dfy` (bytes, `Option`), `ports.dfy` (module `Ports`),
`size_probe.dfy` (`SizeProbe`), `chunk_plan.dfy` (`ChunkPlan`),
`fetcher.dfy` (`Fetcher`), `download.dfy` (`Download`).

Inputs that stand for the outside world:

- the HEAD and GET replies of the size probe are values of `SizeProbe.Reply`;
- the answers to chunk requests are a function `net` from chunk index and
  attempt number (the value of `retries`) to `Failed` or `Body(data)`;
- the scratch directory is a map from chunk index to the bytes of its
  progress file (`/tmp/<filename>.progress.<i>`);
- the output file is the `Written(output)` outcome of `Download.Run`.

The worker pool's `apply_async(...)` followed at once by `.get()` is a plain
call: `main` waits for each chunk before it submits the next, so a
sequential call has the same effect.

Two points where the model follows the code rather than a looser reading of
it: a Content-Length or Content-Range total that `int()` cannot read is not
treated as 0 or as unknown; `int()` raises `ValueError`, which
`get_file_size` does not catch, so the run ends there (`IntError`,
`SizeNotInteger`). And `download_chunk` makes at most 5 requests in all
(`retries` counts every attempt, the first included).

## Model

| member | source | states |
|---|---|---|
| `Ports.Port.constructor` | download.py:33-36 | a new port has the given number and is free |
| `Ports.ClearAll` | download.py:18-19 | after it, every port of the list is free (also `main`'s reset at lines 148-149) |
| `Ports.PortManager.constructor` | download.py:14-19 | the pool holds the given ports and every flag is false |
| `Ports.FirstFree` | download.py:24-27 | the index the scan stops at is a free port and every port before it is busy |
| `Ports.PortManager.GetPort` | download.py:21-27 | returns the first free port in list order, sets its flag, and no other flag changes |
| `Ports.PortManager.ReturnPort` | download.py:29-31 | the given port's flag becomes false and no other flag changes |
| `SizeProbe.RaisesForStatus` | download.py:56 | `raise_for_status()` (here and at line 64) raises exactly for the codes of the 4xx and 5xx classes; 1xx to 3xx pass |
| `SizeProbe.ParseInt` | download.py:57 | the model's `int()` (here and at line 68): any character that is not a digit, other than a leading sign, makes it fail, as do the empty string and a lone sign; digits read as their decimal value; only a leading `-` gives a negative value |
| `SizeProbe.DigitsValueOfDecimal` | download.py:68 | reading back a decimal numeral gives the number it was written from |
| `SizeProbe.ParseIntOfDecimal` | download.py:57 | `int()` reads back a numeral and a negated numeral |
| `SizeProbe.LastField` | download.py:68 | `split('/')[-1]` is the suffix without a `/` that is either the whole string or follows a `/` |
| `SizeProbe.LastFieldAfterSeparator` | download.py:68 | the last field of `prefix + "/" + field` is `field`, whatever the prefix |
| `SizeProbe.ResolveSize` | download.py:53-75 | a HEAD that succeeds never gives `None`; after a HEAD that raised, the result is `None` exactly when the GET raised or has no non-empty Content-Range; a `ValueError` carries the Content-Length text, or the last field of the Content-Range |
| `SizeProbe.UsableSize` | download.py:140 | `None`, an unreadable size, 0 and negative sizes are rejected; a size `main` accepts has at least one chunk |
| `SizeProbe.HeadDecides` | download.py:53-57 | a HEAD that succeeds decides the size alone: its Content-Length, or 0 (rejected by `main`) when absent |
| `SizeProbe.FallbackReadsTotal` | download.py:58-69 | after a HEAD that raised, a Content-Range `.../<total>` gives `<total>` |
| `SizeProbe.GetFileSize` | download.py:38-75 | the result is the size decision for the two replies, and the pool's flags end as they began |
| `ChunkPlan.NumChunks` | download.py:151-153 | for a positive size, the chunk count `n` is positive and `(n-1) * 2^20 < size <= n * 2^20` |
| `ChunkPlan.ChunkRange` | download.py:162 | chunk `i`'s range starts at `i * 2^20`, asks for exactly as many bytes as the skip and verify checks expect of its progress file, and for a planned chunk is non-empty and inside `[0, size-1]` |
| `ChunkPlan.ExpectedSize` | download.py:158 | the progress-file size the skip check here and the verify check at line 169 expect of a planned chunk is between 1 and 2^20; every chunk but the last is full; the last holds what remains of the file |
| `ChunkPlan.PlanIsContiguous` | download.py:153-162 | the first range starts at 0, each range starts right after the previous one ends, the last ends at `size-1` |
| `ChunkPlan.PlanIsDisjoint` | download.py:162 | an earlier chunk's range ends before a later one's starts |
| `ChunkPlan.PlanCovers` | download.py:153-162 | every byte of the file is in the range of chunk `b / 2^20` and of no other chunk |
| `ChunkPlan.ThreeMebibytePlan` | download.py:151-162 | a 3 * 2^20-byte file has three chunks `[0,1048575]`, `[1048576,2097151]`, `[2097152,3145727]` |
| `Fetcher.FetchFrom` | download.py:91-114 | from attempt `retries` on: at most 5 requests in all, a failure uses all 5, and a success keeps the right-length body of its last request |
| `Fetcher.FetchFromFailures` | download.py:92-110 | every request before the accepted one brought no acceptable body; a failure means all 5 requests failed |
| `Fetcher.Fetch` | download.py:91-114 | `download_chunk` succeeds iff one of its first 5 answers is a body of the range's length; the kept body has that length; at most 5 requests |
| `Fetcher.RetryLoop` | download.py:91-112 | the loop ends with the body the retry rule accepts, or none, after the number of requests that rule makes |
| `Fetcher.DownloadChunk` | download.py:77-114 | returns `(start, data)` with the retry loop's accepted body or `None`, writes only that body to the progress file, and returns the leased port on both paths |
| `Download.Complete` | download.py:158 | a progress file passing the skip test (and the same verify test at line 169) is exactly as long as the range requested for its chunk |
| `Download.FetchStep` | download.py:157-164 | handling chunk `i` changes no other progress file; a complete file is skipped and nothing changes; file `i` is complete afterwards iff it was complete before or its fetch succeeded |
| `Download.AfterFetch` | download.py:156-164 | the fetch loop removes no progress file and creates none outside the chunks it handled |
| `Download.Indices` | download.py:173-177 | the set of progress-file indices the reassembly loop removes is exactly `0..k-1` |
| `Download.FirstIncomplete` | download.py:167-171 | finds the first progress file that is missing or of the wrong size, or none when all are complete |
| `Download.Concat` | download.py:173-177 | `k` full chunks concatenate to `k * 2^20` bytes |
| `Download.AfterFetchLeavesRest` | download.py:156-164 | the fetch loop leaves progress files it has not reached as they were |
| `Download.FetchLoopStep` | download.py:156-164 | one more pass of the fetch loop decides chunk `i` on its progress file as it was at start |
| `Download.FetchStepLocal` | download.py:157-164 | handling chunk `i` looks only at progress file `i`: directories that agree on it are left agreeing on it |
| `Download.AfterOwnStep` | download.py:156-164 | the pass for chunk `i` leaves file `i` as handling `i` alone on the starting directory would |
| `Download.AfterLaterStep` | download.py:156-164 | a later pass leaves an earlier chunk's progress file as it was |
| `Download.AfterFetchEntry` | download.py:156-164 | after the loop, each handled chunk's progress file is what handling that chunk alone would have made of the starting directory |
| `Download.AfterFetchChunk` | download.py:156-164 | a complete file is kept as it was; otherwise a successful fetch writes its body and a failed one leaves the file; complete afterwards iff complete before or fetched |
| `Download.PendingIff` | download.py:157-164 | `download_chunk` is called for chunk `i` exactly when its progress file is missing or has another size |
| `Download.ResumeFetchesNothing` | download.py:157-160 | with every progress file complete the fetch loop makes no call and changes nothing |
| `Download.ConcatLength` | download.py:173-178 | complete progress files `0..k-1` concatenate to `min(k * 2^20, size)` bytes |
| `Download.ConcatChunk` | download.py:173-178 | in that concatenation, the bytes of chunk `i`'s range are progress file `i` |
| `Download.HandleChunk` | download.py:157-164 | a complete progress file is skipped without a call; otherwise `download_chunk` runs for the chunk's range; the pool's flags end as they began |
| `Download.FetchAll` | download.py:156-165 | the scratch directory after the fetch loop, the list of chunks dispatched, and the pool's flags unchanged |
| `Download.VerifyAll` | download.py:167-171 | reports the first missing or wrong-size progress file, or none |
| `Download.Reassemble` | download.py:173-178 | the output is the progress files in index order, has exactly `size` bytes, chunk `i`'s range of it is file `i`, and files `0..n-1` are removed |
| `Download.MakePorts` | download.py:135 | fresh, distinct, free ports numbered `start_port + i` |
| `Download.RunSpec` | download.py:129-178 | a size `main` rejects ends the run with the scratch directory untouched; `SizeNotInteger` exactly when `int()` failed; chunk work and a written output only with a usable size |
| `Download.Run` | download.py:129-178 | the outcome and the scratch directory left are those of the run's specification |
| `Download.RunSucceedsIff` | download.py:156-178 | the output is written exactly when every chunk had a complete progress file or was fetched |
| `Download.RunSpecWritten` | download.py:138-178 | a written run had a usable size, found every progress file complete after the fetch loop, wrote their concatenation and removed them |
| `Download.WrittenChunk` | download.py:156-177 | once every progress file is complete after the fetch loop, each chunk's range of their concatenation holds its resumed file or its fetched body |
| `Download.RunWritesWholeFile` | download.py:156-178 | a written output has `size` bytes; each chunk's range holds its resumed file or its fetched body; no progress file `0..n-1` is left |
| `Download.ResumeNeedsNoNetwork` | download.py:156-178 | with every progress file complete no chunk is fetched and the output is their concatenation, whatever the network answers |
| `Download.FailedChunkAbortsRun` | download.py:156-171 | a chunk whose 5 requests all fail makes verification abort at or before it; complete and fetched progress files stay on disk |
| `Download.ConcatFirstBodies` | download.py:173-177 | progress files holding the first-attempt bodies concatenate to those bodies in order |
| `Download.FreshRunWritesBodies` | download.py:156-178 | from an empty scratch directory, with every first answer of the right length, the output is those answers in chunk order |

## Left out

- HTTP requests, timeouts, the User-Agent and Range headers, and the SOCKS5 proxy URLs built from a port's number are not modelled; the replies are inputs, and the port a request goes through does not influence its answer.
- The threading lock and the `multiprocessing.dummy` pool: operations run one at a time, and a dispatched chunk is a plain call.
- `Ports.PortManager.GetPort`: when every port is busy the original spins for ever while holding its lock; the model requires a free port instead.
- `Download.Run`: with `--threads` 0 or negative the original hangs in `get_port` during the size probe; the model requires a positive thread count.
- `Ports.PortManager.constructor`: requires the ports to be distinct objects, as `main` builds them; a list holding one Port twice is not modelled.
- `get_file_size` returns its port before making the two requests; the model keeps that order, but with no concurrency there is nothing to show about a request using a returned port.
- Header lookups of `requests` ignore case; the model's header maps are keyed by lower-case names.
- `SizeProbe.ParseInt`: accepts a sign and ASCII digits only; the surrounding whitespace, underscores and non-ASCII digits that Python's `int()` also accepts are read as errors, so its rejection clause is stronger than Python's.
- argparse, the usage error and `sys.exit`: a run ends with an `Outcome` value instead of an exit status; the printed diagnostics are left out.
- The `tqdm` progress bar and its division by 1,000,000 are display only.
- Real files: the scratch directory is a map, so failing writes, reads or removals (`OSError`) and a reassembly interrupted half-way are not modelled; the output file is the `Written` value.
- The result `(start, data)` of `download_chunk` is ignored by `main`, as in the source.
