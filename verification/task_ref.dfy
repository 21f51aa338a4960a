/** `TaskRef`: a copyable, non-owning handle to a task, holding a pointer
    that is never null. Addresses are machine words (`usize` on a 64-bit
    target); the task they point at is not dereferenced here. */
module TaskHandle {
  import opened Wrappers

  const USIZE_LIMIT: int := 0x1_0000_0000_0000_0000

  /** A raw `*const Task` (or the `usize` it is cast from). */
  type Addr = a: int | 0 <= a < USIZE_LIMIT

  /** `NonNull<Task>`. */
  type NonNullAddr = a: Addr | a != 0 witness 1

  /** Equality of `TaskRef`s is equality of their pointers. */
  datatype TaskRef = TaskRef(ptr: NonNullAddr)

  /** `NonNull::new`: `None` for the null pointer. */
  function NonNullNew(p: Addr): (r: Option<NonNullAddr>)
    ensures r.Some? <==> p != 0
    ensures r.Some? ==> r.value == p
  {
    if p == 0 then None else Some(p)
  }

  /** `TaskRef::as_ptr`. */
  function AsPtr(t: TaskRef): (p: Addr)
    ensures p != 0
  {
    t.ptr
  }

  /** `TaskRef::from_ptr`: wraps a pointer, panicking through `unwrap` on null. */
  function FromPtr(p: Addr): (r: Result<TaskRef, Panic>)
    ensures r.Success? <==> p != 0
    ensures r.Success? ==> AsPtr(r.value) == p
    ensures r.Failure? ==> r.error == UnwrapOnNone
  {
    match Unwrap(NonNullNew(p))
    case Success(nn) => Success(TaskRef(nn))
    case Failure(e) => Failure(e)
  }

  /** `TaskRef::virt_task`: the same wrapping, from an address given as a
      plain integer; the cast to a pointer keeps the value. */
  function VirtTask(addr: Addr): (r: Result<TaskRef, Panic>)
    ensures r.Success? <==> addr != 0
    ensures r.Success? ==> AsPtr(r.value) == addr
  {
    FromPtr(addr)
  }

  /** Unwrapping a handle and wrapping its pointer again gives the same handle. */
  lemma FromPtrAsPtr(t: TaskRef)
    ensures FromPtr(AsPtr(t)) == Success(t)
  {
  }

  /** Two handles are equal exactly when their pointers are. */
  lemma AsPtrInjective(t: TaskRef, u: TaskRef)
    ensures AsPtr(t) == AsPtr(u) <==> t == u
  {
  }
}
