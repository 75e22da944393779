/** The liquidity pool records that scanners write and builders read. */
module Pools {

  datatype PoolType = UniswapV2 | UniswapV3

  datatype Pool = Pool(address: string, token0: string, token1: string, fee: int, block: int, poolType: PoolType)

  /** Whether the pool trades token t. */
  predicate Holds(p: Pool, t: string) {
    p.token0 == t || p.token1 == t
  }

  /** Whether the pool trades a against b. */
  predicate Pairs(p: Pool, a: string, b: string) {
    (p.token0 == a && p.token1 == b) || (p.token0 == b && p.token1 == a)
  }
}
