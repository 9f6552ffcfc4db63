/**
 * The Treasury contract wrapper: the four-field initial data cell, the two
 * ways of obtaining a Treasury handle, and the two getters, which return a
 * fixed mock address.
 */
module TreasuryWrapper {
  import opened Wrappers
  import opened Cells

  datatype TreasuryConfig = TreasuryConfig(owner: Address, upgradeAuthority: Address)

  /** house_fee_bps: 250 basis points, 2.5%. */
  const HouseFeeBps: nat := 250

  /** The initial data: owner, upgrade authority, the 16-bit house fee, then an empty airdrop pool. */
  function TreasuryConfigToCell(config: TreasuryConfig): Cell {
    Cell([Addr(config.owner), Addr(config.upgradeAuthority), Uint(HouseFeeBps, 16), Coins(0)])
  }

  /** Reads a data cell back, if it has exactly the layout treasuryConfigToCell writes. */
  function DecodeConfig(c: Cell): Option<TreasuryConfig> {
    if |c.fields| == 4 && c.fields[0].Addr? && c.fields[1].Addr?
       && c.fields[2] == Uint(HouseFeeBps, 16) && c.fields[3] == Coins(0)
    then Some(TreasuryConfig(c.fields[0].a, c.fields[1].a))
    else None
  }

  /** The data cell keeps both addresses, in order: reading it back gives the config it was built from. */
  lemma ConfigRoundTrip(config: TreasuryConfig)
    ensures DecodeConfig(TreasuryConfigToCell(config)) == Some(config)
  {
  }

  /** Conversely, every cell that reads back as a config is exactly the cell that config builds. */
  lemma DecodeConfigExact(c: Cell, config: TreasuryConfig)
    requires DecodeConfig(c) == Some(config)
    ensures c == TreasuryConfigToCell(config)
  {
    assert c.fields == TreasuryConfigToCell(config).fields;
  }

  /**
   * The data cell is well formed for every config: the constant fee 250 fits
   * its 16 bits and the pool starts at zero, whatever the two addresses.
   */
  lemma ConfigCellWellFormed(config: TreasuryConfig)
    ensures WellFormed(TreasuryConfigToCell(config))
    ensures TreasuryConfigToCell(config).fields[2..] == [Uint(250, 16), Coins(0)]
  {
    Pow2Widths();
    assert TreasuryConfigToCell(config).fields[2..] == [Uint(250, 16), Coins(0)];
  }

  /** StateInit: the code and the data a contract is deployed with. */
  datatype StateInit = StateInit(code: Cell, data: Cell)

  /** A Treasury handle: the contract address and, when known, its deployment state. */
  datatype Treasury = Treasury(address: Address, init: Option<StateInit>)

  /** The address both getters report. */
  const MockAddress := Address("EQD4FPq-PRDieyQKkizFTRtSDyucUIqrj0v_zXJmqaDp6_0t")

  /** Treasury.createFromAddress */
  function CreateFromAddress(address: Address): Treasury {
    Treasury(address, None)
  }

  /** Treasury.fromInit: the handle is placed at the owner's address, with empty code and the config as data. */
  function FromInit(owner: Address, upgradeAuthority: Address): Treasury {
    Treasury(owner, Some(StateInit(Empty, TreasuryConfigToCell(TreasuryConfig(owner, upgradeAuthority)))))
  }

  /** getGetOwner: ignores both the handle and the provider. */
  function GetGetOwner<P>(t: Treasury, provider: P): Address {
    MockAddress
  }

  /** getGetUpgradeAuthority: ignores both the handle and the provider. */
  function GetGetUpgradeAuthority<P>(t: Treasury, provider: P): Address {
    MockAddress
  }

  /** createFromAddress keeps the address and carries no deployment state. */
  lemma CreateFromAddressHandle(address: Address)
    ensures CreateFromAddress(address).address == address
    ensures CreateFromAddress(address).init == None
    ensures CreateFromAddress(address) != FromInit(address, address)
  {
  }

  /**
   * fromInit sits at the owner's address, deploys the empty code, and its data
   * reads back as the owner and upgrade authority it was given.
   */
  lemma FromInitHandle(owner: Address, upgradeAuthority: Address)
    ensures FromInit(owner, upgradeAuthority).address == owner
    ensures FromInit(owner, upgradeAuthority).init.Some?
    ensures FromInit(owner, upgradeAuthority).init.value.code == Empty
    ensures DecodeConfig(FromInit(owner, upgradeAuthority).init.value.data) ==
      Some(TreasuryConfig(owner, upgradeAuthority))
  {
    ConfigRoundTrip(TreasuryConfig(owner, upgradeAuthority));
  }

  /**
   * Both getters answer the same fixed address for every handle and provider,
   * so on a handle from fromInit they report the owner (or the upgrade
   * authority) written in its data only when that is the mock address.
   */
  lemma GettersConstant<P>(t: Treasury, u: Treasury, p: P, q: P, owner: Address, upgradeAuthority: Address)
    ensures GetGetOwner(t, p) == GetGetOwner(u, q) == MockAddress
    ensures GetGetUpgradeAuthority(t, p) == GetGetUpgradeAuthority(u, q) == MockAddress
    ensures (GetGetOwner(FromInit(owner, upgradeAuthority), p) ==
             DecodeConfig(FromInit(owner, upgradeAuthority).init.value.data).value.owner)
      <==> owner == MockAddress
    ensures (GetGetUpgradeAuthority(FromInit(owner, upgradeAuthority), p) ==
             DecodeConfig(FromInit(owner, upgradeAuthority).init.value.data).value.upgradeAuthority)
      <==> upgradeAuthority == MockAddress
  {
    FromInitHandle(owner, upgradeAuthority);
  }
}
