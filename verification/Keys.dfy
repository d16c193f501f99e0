/** Addresses, account metas and legs. An address is its 32 bytes read as a little-endian number. */
module Keys {
  import opened Arith

  type Pubkey = x: int
    | 0 <= x < 0x1_00000000_00000000_00000000_00000000_00000000_00000000_00000000_00000000

  /** `Pubkey::default()`, which is also the System Program's address. */
  const DEFAULT_KEY: Pubkey := 0

  const WSOL_MINT: Pubkey :=
    0x1000000_00F0A098_553BEB1A_DC39C4DA_35C01846_637F68FB_8481ABFE_57889B06
  const TOKEN_PROGRAM: Pubkey :=
    0xA900FF7E_85F58C3A_91375B5F_ED85B41C_AC79EBCE_46E1CBD9_93A165D7_E1F6DD06
  const TOKEN_2022_PROGRAM: Pubkey :=
    0xFC8BA1D8_28F9BDFE_270DB983_4DFC1AB6_DACD6CE4_BC5D4218_DE8F75EE_E1F6DD06
  const SYSTEM_PROGRAM: Pubkey := 0
  const ASSOCIATED_TOKEN_PROGRAM: Pubkey :=
    0x59F8E9DB_D87B8E04_8410FFDA_99135A0B_830D8E14_29103DBB_F189244E_8F25978C
  const MEMO_PROGRAM: Pubkey :=
    0x8D440541_40A81FE4_81BB92BC_DDB5357C_7C38DA60_71E8244D_06212999_5A534A05
  const SYSVAR_INSTRUCTIONS: Pubkey :=
    0x8_5FCBBADB_A5755621_8FC624C1_C0C2FD55_04D4DA35_66D17B18_17D5A706
  const LAUNCHLAB_PROGRAM: Pubkey :=
    0x22C951AC_210FCF71_F15621C6_C85A6F8A_AF898F4F_2CB591EF_E126CA4D_953B0405
  const LAUNCHLAB_AUTHORITY: Pubkey :=
    0x28A61F77_EAA421FE_AC9DE79C_D260423A_3B008720_4DE8E8A0_940F2126_15A88307
  const LAUNCHLAB_EVENT_AUTHORITY: Pubkey :=
    0x6FDD8E06_A086C774_D2AF3FC9_A0A4B597_63D7497E_E9DE9E4B_8EE2DD35_9BB90712
  const RAYDIUM_CPMM_PROGRAM: Pubkey :=
    0x73EC200C_69432E94_930C92EB_A8E6ACB5_955BFD93_AA502584_5259294F_8B5A2AA9
  const RAYDIUM_CPMM_AUTHORITY: Pubkey :=
    0x679A8E2F_4FE8B52B_0573F30D_6064B950_64F0D6B4_37D0C74A_21B492B2_F5D900EB
  const PUMPSWAP_PROGRAM: Pubkey :=
    0x63A8E918_0C09F8D4_B471D556_318D29F4_654065BB_18082594_76C65E82_FCDE140C
  const PUMPSWAP_GLOBAL: Pubkey :=
    0xD670E121_8E85692B_F7EEEA4B_0A6E3B23_D314ECD2_D21CF119_AA551FFE_44A60B89
  const PUMPSWAP_EVENT_AUTHORITY: Pubkey :=
    0x5E745894_1672EC3B_B72FB671_7AE41692_131C8979_60B8B9C0_619F8328_95704AE5
  const PUMPSWAP_GLOBAL_VOLUME_ACCUMULATOR: Pubkey :=
    0xB4F7AADD_18298A17_F9583EE9_0D82F9C3_E1C27E43_838FA62C_C1AD587E_12BBD7A3
  const PUMPSWAP_FEE_CONFIG: Pubkey :=
    0xCB106042_14B53E6F_DF974764_073A9237_99416569_A47317E4_81FE787D_CC6E2441
  const PUMPSWAP_FEE_PROGRAM: Pubkey :=
    0x707CC214_A46A519C_00401FA4_2CC9F14C_27155607_BCF7A88D_568E5A05_A9FF350C
  const RAYDIUM_AMM_V4_PROGRAM: Pubkey :=
    0xCD8AB6F8_7DECFF0C_A9A221F1_5C97B9A1_4C52A316_ED907720_3FC30236_C449D94B
  const RAYDIUM_AMM_V4_AUTHORITY: Pubkey :=
    0x8938922_8D3650B3_93A384A0_4359E78E_D7F9BC2D_58624AE4_FCC5310F_58B05741
  const METEORA_DAMM_V2_PROGRAM: Pubkey :=
    0xED5AF938_3A06ED6C_20AF6AF7_9F385297_8EDB706A_B6D4872B_9C157A65_35212D09
  const METEORA_DAMM_V2_AUTHORITY: Pubkey :=
    0xE5A9731C_01A99502_500394B2_598ABD2F_D9E47307_DD22C86A_73F1A5AC_35D5CCF2
  const RAYDIUM_CLMM_PROGRAM: Pubkey :=
    0x1E40B09C_D307FD57_22B792C1_C13F1359_B12CE32F_BA14B790_B55DCF04_9ECAD5A5
  const ORCA_WHIRLPOOL_PROGRAM: Pubkey :=
    0xA979782B_8F2A95AA_F8821CA1_6A70C7ED_6AA7F566_1C1258E4_5390908E_5F68030E
  const METEORA_DLMM_PROGRAM: Pubkey :=
    0xBCB02085_3BBA0857_92B07362_1C0C5915_CE0C64E2_E9CC32C9_26E884BC_2FE1E904
  const METEORA_DLMM_EVENT_AUTHORITY: Pubkey :=
    0x91CDC785_0C0D9C5E_44D9C959_ED2B7435_AF2B9658_13051302_CF518CA9_7FD670B2

  datatype AccountMeta = AccountMeta(pubkey: Pubkey, isSigner: bool, isWritable: bool)

  function Writable(key: Pubkey): AccountMeta {
    AccountMeta(key, false, true)
  }

  function Readonly(key: Pubkey): AccountMeta {
    AccountMeta(key, false, false)
  }

  function WritableAll(keys: seq<Pubkey>): (metas: seq<AccountMeta>)
    ensures |metas| == |keys| && forall i :: 0 <= i < |keys| ==> metas[i] == Writable(keys[i])
  {
    seq(|keys|, i requires 0 <= i < |keys| => Writable(keys[i]))
  }

  /** One CPI of a route. */
  datatype Leg = Leg(programId: Pubkey, accounts: seq<AccountMeta>, data: seq<u8>)

  const MAX_LEG_ACCOUNTS: nat := 64
}
