/** What the system answers when it is asked for memory. */
module SystemCalls {
  import opened Layout

  const MAP_FAILED := -1

  // The answers in the course of one call of the allocator. For mmap it is an address, and one that
  // cannot be had, such as MAP_FAILED, is a failure; for mprotect and remapping it is success or not.
  datatype Answers = Answers(
    core: int,         // mmap as the backup of MORECORE
    grown: bool,       // mprotect in grow_heap
    saved: bool,       // an aligned area is left over from an earlier heap, and
    area: int,         // mmap there
    twice: int,        // mmap of twice HEAP_MAX_SIZE
    once: int,         // mmap of HEAP_MAX_SIZE
    accessible: bool,  // mprotect in new_heap
    retop: bool,       // remapping in heap_trim, when the rest of the old top is freed
    first: bool,       // and when the caller of malloc frees one chunk
    second: bool)      // and a second one

  // No region, with the area of hm granules reserved for it, meets [b, e).
  predicate Unmapped(rs: seq<Region>, hm: int, b: int, e: int) {
    forall i :: 0 <= i < |rs| ==> (e <= rs[i].base || rs[i].base + hm <= b) && (e <= rs[i].base || rs[i].end <= b)
  }

  // len granules can be mapped at p.
  predicate CanMap(rs: seq<Region>, hm: int, page: int, limit: int, len: int, p: int)
    requires page > 0
  { 0 < p && p % page == 0 && p + len <= limit && Unmapped(rs, hm, p, p + len) }

  // mmap of len granules
  function Mmap(rs: seq<Region>, hm: int, page: int, limit: int, len: int, answer: int): (p: int)
    requires page > 0
    ensures p != MAP_FAILED ==> CanMap(rs, hm, page, limit, len, p)
  { if CanMap(rs, hm, page, limit, len, answer) then answer else MAP_FAILED }
}
