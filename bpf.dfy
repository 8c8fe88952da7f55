/**
 * What the two eBPF programs share: the fixed-width integers of the kernel
 * interface, the little-endian host's byte swap, the wrapping increment of
 * `__sync_fetch_and_add(counter, 1)` on a 64-bit counter, the PID half of
 * `bpf_get_current_pid_tgid()`, and the constants of the socket interface.
 */
module Bpf {

  type Byte = x: int | 0 <= x < 0x100
  type U16 = x: int | 0 <= x < 0x1_0000
  type U32 = x: int | 0 <= x < 0x1_0000_0000
  type U64 = x: int | 0 <= x < 0x1_0000_0000_0000_0000

  const AfInet: int := 2
  const AfInet6: int := 10

  /** The sockops callbacks the programs act on. */
  const SockOpsTcpConnectCb: int := 3
  const SockOpsActiveEstablishedCb: int := 4
  const SockOpsPassiveEstablishedCb: int := 5

  /** `bpf_htons` on a little-endian host: the two bytes swap. */
  function Htons(x: U16): U16 {
    (x % 0x100) * 0x100 + x / 0x100
  }

  lemma HtonsInvolution(x: U16)
    ensures Htons(Htons(x)) == x
  {
  }

  /** A 64-bit counter increment that wraps around. */
  function Inc(x: U64): (r: U64)
    ensures x < 0x1_0000_0000_0000_0000 - 1 ==> r == x + 1
    ensures x == 0x1_0000_0000_0000_0000 - 1 ==> r == 0
  {
    (x + 1) % 0x1_0000_0000_0000_0000
  }

  /** The PID half of `bpf_get_current_pid_tgid()`: its upper 32 bits. */
  function Pid(pidTgid: U64): U32 {
    pidTgid / 0x1_0000_0000
  }
}
