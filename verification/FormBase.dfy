/** What the whole form library shares: its result codes and its 16-bit members. */
module FormBase {
  datatype Code = E_OK | E_CONNECTED | E_POSTED | E_BAD_ARGUMENT | E_SYSTEM_ERROR

  const SHORT_MAX := 32767

  /** The cast to a 16-bit short. */
  function ToShort(n: int): int { (n + 32768) % 65536 - 32768 }
}
