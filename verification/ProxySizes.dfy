/** The size of the proxy cache. */
module ProxySizes {
  const LINES: nat := 10
}
