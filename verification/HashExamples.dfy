/**
 The worked examples in appendices A and B of RFC 7693: the hashes of the message "abc", with the
 working vector after every round.
 */
module HashExamples {
  import opened Bytes
  import opened Rounds
  import opened Blake2Spec
  import Blake2b
  import Blake2s

  /** The message "abc". */
  const ABC: seq<byte> := [0x61, 0x62, 0x63]

  // ---- Blake2b ----

  /** The words of its only block. */
  const M64: seq<bv64> := [0x636261, 0, 0, 0, 0, 0, 0, 0, 0, 0, 0, 0, 0, 0, 0, 0]

  // The working vector before the first round, and after each.

  const V64_0: seq<bv64> :=
    [0x6a09e667f2bdc948, 0xbb67ae8584caa73b, 0x3c6ef372fe94f82b, 0xa54ff53a5f1d36f1,
     0x510e527fade682d1, 0x9b05688c2b3e6c1f, 0x1f83d9abfb41bd6b, 0x5be0cd19137e2179,
     0x6a09e667f3bcc908, 0xbb67ae8584caa73b, 0x3c6ef372fe94f82b, 0xa54ff53a5f1d36f1,
     0x510e527fade682d2, 0x9b05688c2b3e6c1f, 0xe07c265404be4294, 0x5be0cd19137e2179]
  const V64_1: seq<bv64> :=
    [0x86b7c1568029bb79, 0xc12cbcc809ff59f3, 0xc6a5214cc0eaca8e, 0x0c87cd524c14cc5d,
     0x44ee6039bd86a9f7, 0xa447c850aa694a7e, 0xde080f1bb1c0f84b, 0x595cb8a9a1aca66c,
     0xbec3ae837eac4887, 0x6267fc79df9d6ad1, 0xfa87b01273fa6dbe, 0x521a715c63e08d8a,
     0xe02d0975b8d37a83, 0x1c7b754f08b7d193, 0x8f885a76b6e578fe, 0x2318a24e2140fc64]
  const V64_2: seq<bv64> :=
    [0x53281e83806010f2, 0x3594b403f81b4393, 0x8cd63c7462de0dff, 0x85f693f3da53f974,
     0xbaabdbb2f386d9ae, 0xca5425aec65a10a8, 0xc6a22e2ff0f7aa48, 0xc6a56a51cb89c595,
     0x224e6a3369224f96, 0x500e125e58a92923, 0xe9e4ad0d0e1a0d48, 0x85df9dc143c59a74,
     0x92a3aaaa6d952b7f, 0xc5fdf71090fae853, 0x2a8a40f15a462dd0, 0x572d17effdd37358]
  const V64_3: seq<bv64> :=
    [0x60ed96aa7ad41725, 0xe46a743c71800b9d, 0x1a04b543a01f156b, 0xa2f8716e775c4877,
     0xda0a61bcde4267ea, 0xb1dd230754d7bdee, 0x25a1422779e06d14, 0xe6823ae4c3ff58a5,
     0xa1677e19f37fd5da, 0x22bdce6976b08c51, 0xf1de8696bec11bf1, 0xa0ebd586a4a1d2c8,
     0xc804ebab11c99fa9, 0x8e0cec959c715793, 0x7c45557fae0d4d89, 0x716343f52fdd265e]
  const V64_4: seq<bv64> :=
    [0xbb2a77d3a8382351, 0x45eb47971f23b103, 0x98be297f6e45c684, 0xa36077dee3370b89,
     0x8a03c4cb7e97590a, 0x24192e49ebf54ea0, 0x4f82c9401cb32d7a, 0x8ccd013726420dc4,
     0xa9c9a8f17b1fc614, 0x55908187977514a0, 0x5b44273e66b19d27, 0xb6d5c9fca2579327,
     0x086092cfb858437e, 0x5c4be2156dbeecf9, 0x2efede99ed4eff16, 0x3e7b5f234cd1f804]
  const V64_5: seq<bv64> :=
    [0xc79c15b3d423b099, 0x2da2224e8da97556, 0x77d2b26df1c45c55, 0x8934eb09a3456052,
     0x0f6d9eeed157da2a, 0x6fe66467af88c0a9, 0x4eb0b76284c7aafb, 0x299c8e725d954697,
     0xb2240b59e6d567d3, 0x2643c2370e49ebfd, 0x79e02eef20cdb1ae, 0x64b3eed7bb602f39,
     0xb97d2d439e4df63d, 0xc718e755294c9111, 0x1f0893f2772bb373, 0x1205ea4a7859807d]
  const V64_6: seq<bv64> :=
    [0xe58f97d6385baee4, 0x7640aa9764da137a, 0xdeb4c7c23efe287e, 0x70f6f41c8783c9f6,
     0x7127cd48c76a7708, 0x9e472af0be3db3f6, 0x0f244c62ddf71788, 0x219828aa83880842,
     0x41cca9073c8c4d0d, 0x5c7912bc10df3b4b, 0xa2c3abbd37510ee2, 0xcb5668cc2a9f7859,
     0x8733794f07ac1500, 0xc67a6be42335aa6f, 0xacb22b28681e4c82, 0xdb2161604cbc9828]
  const V64_7: seq<bv64> :=
    [0x6e2d286eeadedc81, 0xbcf02c0787e86358, 0x57d56a56dd015edf, 0x55d899d40a5d0d0a,
     0x819415b56220c459, 0xb63c479a6a769f02, 0x258e55e0ec1f362a, 0x3a3b4ec60e19dfdc,
     0x04d769b3fcb048db, 0xb78a9a33e9bff4dd, 0x5777272ae1e930c0, 0x5a387849e578dbf6,
     0x92aac307cf2c0afc, 0x30aaccc4f06dafaa, 0x483893cc094f8863, 0xe03c6cc89c26bf92]
  const V64_8: seq<bv64> :=
    [0xffc83ece76024d01, 0x1be7bffb8c5cc5f9, 0xa35a18cbac4c65b7, 0xb7c2c7e6d88c285f,
     0x81937da314a50838, 0xe1179523a2541963, 0x3a1fad7106232b8f, 0x1c7ede92ab8b9c46,
     0xa3c2d35e4f685c10, 0xa53d3f73aa619624, 0x30bbcc0285a22f65, 0xbcefbb6a81539e5d,
     0x3841def6f4c9848a, 0x98662c85fba726d4, 0x7762439bd5a851bd, 0xb0b9f0d443d1a889]
  const V64_9: seq<bv64> :=
    [0x753a70a1e8faeadd, 0x6b0d43ca2c25d629, 0xf8343ba8b94f8c0b, 0xbc7d062b0db5cf35,
     0x58540ee1b1aebc47, 0x63c5b9b80d294cb9, 0x490870ecad27debd, 0xb2a90ddf667287fe,
     0x316cc9ebeefad8fc, 0x4a466bcd021526a4, 0x5da7f7638cec5669, 0xd9c8826727d306fc,
     0x88ed6c4f3bd7a537, 0x19ae688ddf67f026, 0x4d8707aab40f7e6d, 0xfd3f572687fea4f1]
  const V64_10: seq<bv64> :=
    [0xe630c747ccd59c4f, 0xbc713d41127571ca, 0x46db183025025078, 0x6727e81260610140,
     0x2d04185eac2a8cba, 0x5f311b88904056ec, 0x40bd313009201aab, 0x0099d4f82a2a1eab,
     0x6dd4fbc1de60165d, 0xb3b0b51de3c86270, 0x900aee2f233b08e5, 0xa07199d87ad058d8,
     0x2c6b25593d717852, 0x37e8ca471beaa5f8, 0x2cfc1bac10ef4457, 0x01369ec18746e775]
  const V64_11: seq<bv64> :=
    [0xe801f73b9768c760, 0x35c6d22320be511d, 0x306f27584f65495e, 0xb51776adf569a77b,
     0xf4f1be86690b3c34, 0x3cc88735d1475e4b, 0x5dac67921ff76949, 0x1cdb9d31ad70cc4e,
     0x35ba354a9c7df448, 0x4929cbe45679d73e, 0x733d1a17248f39db, 0x92d57b736f5f170a,
     0x61b5c0a41d491399, 0xb5c333457e12844a, 0xbd696be010d0d889, 0x02231e1a917fe0bd]
  const V64_12: seq<bv64> :=
    [0x12ef8a641ec4f6d6, 0xbced5de977c9faf5, 0x733ca476c5148639, 0x97df596b0610f6fc,
     0xf42c16519ad5afa7, 0xaa5ac1888e10467e, 0x217d930aa51787f3, 0x906a6ff19e573942,
     0x75ab709bd3dcbf24, 0xee7ce1f345947aa4, 0xf8960d6c2faf5f5e, 0xe332538a36b6d246,
     0x885bef040ef6aa0b, 0xa4939a417bfb78a3, 0x646cbb7af6dce980, 0xe813a23c60af3b82]

  /** After the columns of the first round. */
  const Mid64: seq<bv64> :=
    [0xf0c9aa0f86491dea, 0x63b7dedf4a4e5ad3, 0xbe50eb454e0a93d7, 0x949804b0483ead14,
     0xb7defc3d0277e11f, 0xed49c30cd311d50e, 0xa056671704b00d71, 0x75e6432fc4661b06,
     0xee5e0f39647a9fff, 0x7bee264bf3cdadfe, 0xb2752dadd66bd8f9, 0xa99463cb37905929,
     0x7772fc2886a76c5f, 0x254ef880a19a8726, 0x789d43381c47f584, 0xa25ef57d7da312ee]

  lemma Columns64()
    ensures MixColumns(Blake2b.Arithmetic(), V64_0, [0x636261, 0, 0, 0, 0, 0, 0, 0]) == Mid64
  {}

  lemma Diagonals64()
    ensures Undiagonalised(MixColumns(Blake2b.Arithmetic(), Diagonalised(Mid64), [0, 0, 0, 0, 0, 0, 0, 0])) == V64_1
  {}

  lemma Round64_0()
    ensures Round(Blake2b.Arithmetic(), V64_0, Scheduled(M64, Blake2b.Sigma(0))) == V64_1
  {
    WordsAt64(0);
    var s: seq<bv64> := [0x636261, 0, 0, 0, 0, 0, 0, 0, 0, 0, 0, 0, 0, 0, 0, 0];
    assert Scheduled(M64, Blake2b.Sigma(0)) == s;
    hide MixColumns, Scheduled, Blake2b.Sigma, M64, V64_0, V64_1, Mid64;
    assert s[..8] == [0x636261, 0, 0, 0, 0, 0, 0, 0] && s[8..] == [0, 0, 0, 0, 0, 0, 0, 0];
    Columns64();
    Diagonals64();
    RoundByRows(Blake2b.Arithmetic(), V64_0, s);
  }

  lemma Round64_1()
    ensures Round(Blake2b.Arithmetic(), V64_1, Scheduled(M64, Blake2b.Sigma(1))) == V64_2
  {
    WordsAt64(1);
    RoundByRows(Blake2b.Arithmetic(), V64_1, [0, 0, 0, 0, 0, 0, 0, 0, 0, 0, 0x636261, 0, 0, 0, 0, 0]);
  }

  lemma Round64_2()
    ensures Round(Blake2b.Arithmetic(), V64_2, Scheduled(M64, Blake2b.Sigma(2))) == V64_3
  {
    WordsAt64(2);
    RoundByRows(Blake2b.Arithmetic(), V64_2, [0, 0, 0, 0x636261, 0, 0, 0, 0, 0, 0, 0, 0, 0, 0, 0, 0]);
  }

  lemma Round64_3()
    ensures Round(Blake2b.Arithmetic(), V64_3, Scheduled(M64, Blake2b.Sigma(3))) == V64_4
  {
    WordsAt64(3);
    RoundByRows(Blake2b.Arithmetic(), V64_3, [0, 0, 0, 0, 0, 0, 0, 0, 0, 0, 0, 0, 0, 0x636261, 0, 0]);
  }

  lemma Round64_4()
    ensures Round(Blake2b.Arithmetic(), V64_4, Scheduled(M64, Blake2b.Sigma(4))) == V64_5
  {
    WordsAt64(4);
    RoundByRows(Blake2b.Arithmetic(), V64_4, [0, 0x636261, 0, 0, 0, 0, 0, 0, 0, 0, 0, 0, 0, 0, 0, 0]);
  }

  lemma Round64_5()
    ensures Round(Blake2b.Arithmetic(), V64_5, Scheduled(M64, Blake2b.Sigma(5))) == V64_6
  {
    WordsAt64(5);
    RoundByRows(Blake2b.Arithmetic(), V64_5, [0, 0, 0, 0, 0x636261, 0, 0, 0, 0, 0, 0, 0, 0, 0, 0, 0]);
  }

  lemma Round64_6()
    ensures Round(Blake2b.Arithmetic(), V64_6, Scheduled(M64, Blake2b.Sigma(6))) == V64_7
  {
    WordsAt64(6);
    RoundByRows(Blake2b.Arithmetic(), V64_6, [0, 0, 0, 0, 0, 0, 0, 0, 0x636261, 0, 0, 0, 0, 0, 0, 0]);
  }

  lemma Round64_7()
    ensures Round(Blake2b.Arithmetic(), V64_7, Scheduled(M64, Blake2b.Sigma(7))) == V64_8
  {
    WordsAt64(7);
    RoundByRows(Blake2b.Arithmetic(), V64_7, [0, 0, 0, 0, 0, 0, 0, 0, 0, 0x636261, 0, 0, 0, 0, 0, 0]);
  }

  lemma Round64_8()
    ensures Round(Blake2b.Arithmetic(), V64_8, Scheduled(M64, Blake2b.Sigma(8))) == V64_9
  {
    WordsAt64(8);
    RoundByRows(Blake2b.Arithmetic(), V64_8, [0, 0, 0, 0, 0, 0, 0x636261, 0, 0, 0, 0, 0, 0, 0, 0, 0]);
  }

  lemma Round64_9()
    ensures Round(Blake2b.Arithmetic(), V64_9, Scheduled(M64, Blake2b.Sigma(9))) == V64_10
  {
    WordsAt64(9);
    RoundByRows(Blake2b.Arithmetic(), V64_9, [0, 0, 0, 0, 0, 0, 0, 0, 0, 0, 0, 0, 0, 0, 0, 0x636261]);
  }

  lemma Round64_10()
    ensures Round(Blake2b.Arithmetic(), V64_10, Scheduled(M64, Blake2b.Sigma(10))) == V64_11
  {
    WordsAt64(10);
    RoundByRows(Blake2b.Arithmetic(), V64_10, [0x636261, 0, 0, 0, 0, 0, 0, 0, 0, 0, 0, 0, 0, 0, 0, 0]);
  }

  lemma Round64_11()
    ensures Round(Blake2b.Arithmetic(), V64_11, Scheduled(M64, Blake2b.Sigma(11))) == V64_12
  {
    WordsAt64(11);
    RoundByRows(Blake2b.Arithmetic(), V64_11, [0, 0, 0, 0, 0, 0, 0, 0, 0, 0, 0x636261, 0, 0, 0, 0, 0]);
  }

  /** The block's words in the order of row r of sigma: only the first is not zero. */
  lemma WordsAt64(r: nat)
    requires r < Blake2b.ROUNDS
    ensures var s := Scheduled(M64, Blake2b.Sigma(r));
            forall i :: 0 <= i < 16 ==> s[i] == if Blake2b.Sigma(r)[i] == 0 then 0x636261 else 0
  {}

  // ---- Blake2s ----

  /** The words of its only block. */
  const M32: seq<bv32> := [0x636261, 0, 0, 0, 0, 0, 0, 0, 0, 0, 0, 0, 0, 0, 0, 0]

  // The working vector before the first round, and after each.

  const V32_0: seq<bv32> :=
    [0x6b08e647, 0xbb67ae85, 0x3c6ef372, 0xa54ff53a, 0x510e527f, 0x9b05688c, 0x1f83d9ab, 0x5be0cd19,
     0x6a09e667, 0xbb67ae85, 0x3c6ef372, 0xa54ff53a, 0x510e527c, 0x9b05688c, 0xe07c2654, 0x5be0cd19]
  const V32_1: seq<bv32> :=
    [0x16a3242e, 0xd7b5e238, 0xce8ce24b, 0x927aede1, 0xa7b430d9, 0x93a4a14e, 0xa44e7c31, 0x41d4759b,
     0x95bf33d3, 0x9a99c181, 0x608a3a6b, 0xb666383e, 0x7a8dd50f, 0xbe378ed7, 0x353d1ee6, 0x3bb44c6b]
  const V32_2: seq<bv32> :=
    [0x3ae30fe3, 0x0982a96b, 0xe88185b4, 0x3e339b16, 0xf24338cd, 0x0e66d326, 0xe005ed0c, 0xd591a277,
     0x180b1f3a, 0xfcf43914, 0x30db62d6, 0x4847831c, 0x7f00c58e, 0xfb847886, 0xc544e836, 0x524ab0e2]
  const V32_3: seq<bv32> :=
    [0x7a3be783, 0x997546c1, 0xd45246df, 0xedb5f821, 0x7f98a742, 0x10e864e2, 0xd4ab70d0, 0xc63cb1ab,
     0x6038da9e, 0x414594b0, 0xf2c218b5, 0x8da0dcb7, 0xd7cd7af5, 0xab4909df, 0x85031a52, 0xc4edfc98]
  const V32_4: seq<bv32> :=
    [0x2a8b8cb7, 0x1aca82b2, 0x14045d7f, 0xcc7258ed, 0x383cf67c, 0xe090e7f9, 0x3025d276, 0x57d04de4,
     0x994bacf0, 0xf0982759, 0xf17ee300, 0xd48fc2d5, 0xdc854c10, 0x523898a9, 0xc03a0f89, 0x47d6cd88]
  const V32_5: seq<bv32> :=
    [0xc4aa2ddb, 0x111343a3, 0xd54a700a, 0x574a00a9, 0x857d5a48, 0xb1e11989, 0x6f5c52df, 0xdd2c53a3,
     0x678e5f8e, 0x9718d4e9, 0x622cb684, 0x92976076, 0x0e41a517, 0x359dc2be, 0x87a87ddd, 0x643f9cec]
  const V32_6: seq<bv32> :=
    [0x3453921c, 0xd7595ee1, 0x592e776d, 0x3ed6a974, 0x4d997cb3, 0xde9212c3, 0x35adf5c9, 0x9916fd65,
     0x96562e89, 0x4ead0792, 0xebfc2712, 0x2385f5b2, 0xf34600fb, 0xd7bc20fb, 0xeb452a7b, 0xece1aa40]
  const V32_7: seq<bv32> :=
    [0xbe851b2d, 0xa85f6358, 0x81e6fc3b, 0x0bb28000, 0xfa55a33a, 0x87be1fad, 0x4119370f, 0x1e2261aa,
     0xa1318fd3, 0xf4329816, 0x071783c2, 0x6e536a8d, 0x9a81a601, 0xe7ec80f1, 0xacc09948, 0xf849a584]
  const V32_8: seq<bv32> :=
    [0x07e5b85a, 0x069cc164, 0xf9de3141, 0xa56f4680, 0x9e440ad2, 0x9ab659ea, 0x3c84b971, 0x21dbd9cf,
     0x46699f8c, 0x765257ec, 0xaf1d998c, 0x75e4c3b6, 0x523878dc, 0x30715015, 0x397fee81, 0x4f1fa799]
  const V32_9: seq<bv32> :=
    [0x435148c4, 0xa5aa2d11, 0x4b354173, 0xd543bc9e, 0xbda2591c, 0xbf1d2569, 0x4fcb3120, 0x707ada48,
     0x565b3fde, 0x32c9c916, 0xeaf4a1ab, 0xb1018f28, 0x8078d978, 0x68ade4b5, 0x9778fda3, 0x2863b92e]
  const V32_10: seq<bv32> :=
    [0xd9c994aa, 0xcfec3aa6, 0x700d0ab2, 0x2c38670e, 0xaf6a1f66, 0x1d023ef3, 0x1d9ec27d, 0x945357a5,
     0x3e9ffebd, 0x969fe811, 0xef485e21, 0xa632797a, 0xdeef082e, 0xaf3d80e1, 0x4e86829b, 0x4deafd3a]

  /** After the columns of the first round. */
  const Mid32: seq<bv32> :=
    [0xd6c0c1df, 0x8c871712, 0xc6a650d4, 0xd26fb9fc, 0x7f898693, 0x8d07c52d, 0xb9d6aa3a, 0x88609304,
     0xde856f07, 0xb5f896c7, 0x81e69eeb, 0xe17775ed, 0xab1f9b2c, 0x7af31ada, 0x5a2defeb, 0x2cdd25e3]

  lemma Columns32()
    ensures MixColumns(Blake2s.Arithmetic(), V32_0, [0x636261, 0, 0, 0, 0, 0, 0, 0]) == Mid32
  {}

  lemma Diagonals32()
    ensures Undiagonalised(MixColumns(Blake2s.Arithmetic(), Diagonalised(Mid32), [0, 0, 0, 0, 0, 0, 0, 0])) == V32_1
  {}

  lemma Round32_0()
    ensures Round(Blake2s.Arithmetic(), V32_0, Scheduled(M32, Blake2s.Sigma(0))) == V32_1
  {
    WordsAt32(0);
    var s: seq<bv32> := [0x636261, 0, 0, 0, 0, 0, 0, 0, 0, 0, 0, 0, 0, 0, 0, 0];
    assert Scheduled(M32, Blake2s.Sigma(0)) == s;
    hide MixColumns, Scheduled, Blake2s.Sigma, M32, V32_0, V32_1, Mid32;
    assert s[..8] == [0x636261, 0, 0, 0, 0, 0, 0, 0] && s[8..] == [0, 0, 0, 0, 0, 0, 0, 0];
    Columns32();
    Diagonals32();
    RoundByRows(Blake2s.Arithmetic(), V32_0, s);
  }

  lemma Round32_1()
    ensures Round(Blake2s.Arithmetic(), V32_1, Scheduled(M32, Blake2s.Sigma(1))) == V32_2
  {
    WordsAt32(1);
    RoundByRows(Blake2s.Arithmetic(), V32_1, [0, 0, 0, 0, 0, 0, 0, 0, 0, 0, 0x636261, 0, 0, 0, 0, 0]);
  }

  lemma Round32_2()
    ensures Round(Blake2s.Arithmetic(), V32_2, Scheduled(M32, Blake2s.Sigma(2))) == V32_3
  {
    WordsAt32(2);
    RoundByRows(Blake2s.Arithmetic(), V32_2, [0, 0, 0, 0x636261, 0, 0, 0, 0, 0, 0, 0, 0, 0, 0, 0, 0]);
  }

  lemma Round32_3()
    ensures Round(Blake2s.Arithmetic(), V32_3, Scheduled(M32, Blake2s.Sigma(3))) == V32_4
  {
    WordsAt32(3);
    RoundByRows(Blake2s.Arithmetic(), V32_3, [0, 0, 0, 0, 0, 0, 0, 0, 0, 0, 0, 0, 0, 0x636261, 0, 0]);
  }

  lemma Round32_4()
    ensures Round(Blake2s.Arithmetic(), V32_4, Scheduled(M32, Blake2s.Sigma(4))) == V32_5
  {
    WordsAt32(4);
    RoundByRows(Blake2s.Arithmetic(), V32_4, [0, 0x636261, 0, 0, 0, 0, 0, 0, 0, 0, 0, 0, 0, 0, 0, 0]);
  }

  lemma Round32_5()
    ensures Round(Blake2s.Arithmetic(), V32_5, Scheduled(M32, Blake2s.Sigma(5))) == V32_6
  {
    WordsAt32(5);
    RoundByRows(Blake2s.Arithmetic(), V32_5, [0, 0, 0, 0, 0x636261, 0, 0, 0, 0, 0, 0, 0, 0, 0, 0, 0]);
  }

  lemma Round32_6()
    ensures Round(Blake2s.Arithmetic(), V32_6, Scheduled(M32, Blake2s.Sigma(6))) == V32_7
  {
    WordsAt32(6);
    RoundByRows(Blake2s.Arithmetic(), V32_6, [0, 0, 0, 0, 0, 0, 0, 0, 0x636261, 0, 0, 0, 0, 0, 0, 0]);
  }

  lemma Round32_7()
    ensures Round(Blake2s.Arithmetic(), V32_7, Scheduled(M32, Blake2s.Sigma(7))) == V32_8
  {
    WordsAt32(7);
    RoundByRows(Blake2s.Arithmetic(), V32_7, [0, 0, 0, 0, 0, 0, 0, 0, 0, 0x636261, 0, 0, 0, 0, 0, 0]);
  }

  lemma Round32_8()
    ensures Round(Blake2s.Arithmetic(), V32_8, Scheduled(M32, Blake2s.Sigma(8))) == V32_9
  {
    WordsAt32(8);
    RoundByRows(Blake2s.Arithmetic(), V32_8, [0, 0, 0, 0, 0, 0, 0x636261, 0, 0, 0, 0, 0, 0, 0, 0, 0]);
  }

  lemma Round32_9()
    ensures Round(Blake2s.Arithmetic(), V32_9, Scheduled(M32, Blake2s.Sigma(9))) == V32_10
  {
    WordsAt32(9);
    RoundByRows(Blake2s.Arithmetic(), V32_9, [0, 0, 0, 0, 0, 0, 0, 0, 0, 0, 0, 0, 0, 0, 0, 0x636261]);
  }

  /** The block's words in the order of row r of sigma: only the first is not zero. */
  lemma WordsAt32(r: nat)
    requires r < Blake2s.ROUNDS
    ensures var s := Scheduled(M32, Blake2s.Sigma(r));
            forall i :: 0 <= i < 16 ==> s[i] == if Blake2s.Sigma(r)[i] == 0 then 0x636261 else 0
  {}

  /** A message that fits into one block. */
  lemma OneBlock(v: Variant, o: Origin)
    requires o.h.For(v) && o.t == 0 && !o.last && !o.node
    ensures Finished(v, o, ABC, false) == F(v, o.h, Padded(ABC, v.BlockBytes()), 3, true, false)
  {
    hide F, Padded;
    assert ABC[0..] == ABC;
  }

  lemma Next64(n: nat, v: seq<bv64>)
    requires n < Blake2b.ROUNDS && |v| == 16 && AfterRounds(Blake2b.Arithmetic(), Blake2b.Rows(), V64_0, M64, n) == v
    ensures AfterRounds(Blake2b.Arithmetic(), Blake2b.Rows(), V64_0, M64, n + 1) ==
            Round(Blake2b.Arithmetic(), v, Scheduled(M64, Blake2b.Sigma(n)))
  {
    hide Round, Blake2b.Sigma;
  }

  lemma NoRounds64()
    ensures AfterRounds(Blake2b.Arithmetic(), Blake2b.Rows(), V64_0, M64, 0) == V64_0
  {}

  lemma AllRounds64()
    ensures AfterRounds(Blake2b.Arithmetic(), Blake2b.Rows(), V64_0, M64, 12) == V64_12
  {
    NoRounds64();
    hide Round, Blake2b.Sigma, Scheduled, M64, V64_0, V64_1, V64_2, V64_3, V64_4, V64_5, V64_6, V64_7, V64_8, V64_9,
         V64_10, V64_11, V64_12;
    Next64(0, V64_0);
    Round64_0();
    Next64(1, V64_1);
    Round64_1();
    Next64(2, V64_2);
    Round64_2();
    Next64(3, V64_3);
    Round64_3();
    Next64(4, V64_4);
    Round64_4();
    Next64(5, V64_5);
    Round64_5();
    Next64(6, V64_6);
    Round64_6();
    Next64(7, V64_7);
    Round64_7();
    Next64(8, V64_8);
    Round64_8();
    Next64(9, V64_9);
    Round64_9();
    Next64(10, V64_10);
    Round64_10();
    Next64(11, V64_11);
    Round64_11();
  }

  lemma Words64()
    ensures Blake2b.Words(Padded(ABC, 128)) == M64
  {
    var p := Padded(ABC, 128);
    assert p[0] == 0x61 && p[1] == 0x62 && p[2] == 0x63 && forall i :: 3 <= i < 128 ==> p[i] == 0;
    FirstWord64(p[..8]);
    assert p[0..8] == p[..8];
    forall i | 1 <= i < 16
      ensures Load64(p[8 * i..8 * i + 8]) == 0
    {
      NoWord64(p[8 * i..8 * i + 8]);
    }
    hide Load64;
    assert Blake2b.Words(p) == M64;
  }

  lemma FirstWord64(s: seq<byte>)
    requires |s| == 8 && s[0] == 0x61 && s[1] == 0x62 && s[2] == 0x63 && forall i :: 3 <= i < 8 ==> s[i] == 0
    ensures Load64(s) == 0x636261
  {}

  lemma NoWord64(s: seq<byte>)
    requires |s| == 8 && forall i :: 0 <= i < 8 ==> s[i] == 0
    ensures Load64(s) == 0
  {}

  /** The chaining value at the end. */
  const H64: seq<bv64> :=
    [0x0d4d1c983fa580ba, 0xe9f6129fb697276a, 0xb7c45a68142f214c, 0xd1a2ffdb6fbb124b,
     0x2d79ab2a39c5877d, 0x95cc3345ded552c2, 0x5a92f1dba88ad318, 0x239900d4ed8623b9]

  lemma Compressed64(h: seq<bv64>)
    requires h == Blake2b.IV[0 := Blake2b.Xor(Blake2b.IV[0], 0x01010040)]
    ensures Blake2b.Compress(h, Padded(ABC, 128), 3, 0, Flag64(true), Flag64(false)) == H64
  {
    Words64();
    AllRounds64();
    Begin64(h);
    hide AfterRounds, Blake2b.Words, Blake2b.Initial;
    Forward64(h);
  }

  lemma Begin64(h: seq<bv64>)
    requires h == Blake2b.IV[0 := Blake2b.Xor(Blake2b.IV[0], 0x01010040)]
    ensures Blake2b.Initial(h, 3, 0, Flag64(true), Flag64(false)) == V64_0
  {}

  lemma Forward64(h: seq<bv64>)
    requires h == Blake2b.IV[0 := Blake2b.Xor(Blake2b.IV[0], 0x01010040)]
    ensures FeedForward(Blake2b.Arithmetic(), h, V64_12) == H64
  {
    var f := FeedForward(Blake2b.Arithmetic(), h, V64_12);
    forall i | 0 <= i < 8
      ensures f[i] == H64[i]
    {
      Word64(h, i);
    }
  }

  lemma Word64(h: seq<bv64>, i: nat)
    requires h == Blake2b.IV[0 := Blake2b.Xor(Blake2b.IV[0], 0x01010040)] && i < 8
    ensures Blake2b.Xor(Blake2b.Xor(h[i], V64_12[i]), V64_12[i + 8]) == H64[i]
  {
    if i == 0 {
      assert 0x6a09e667f2bdc948 ^ 0x12ef8a641ec4f6d6 ^ 0x75ab709bd3dcbf24 == 0x0d4d1c983fa580ba as bv64;
    } else if i == 1 {
      assert 0xbb67ae8584caa73b ^ 0xbced5de977c9faf5 ^ 0xee7ce1f345947aa4 == 0xe9f6129fb697276a as bv64;
    } else if i == 2 {
      assert 0x3c6ef372fe94f82b ^ 0x733ca476c5148639 ^ 0xf8960d6c2faf5f5e == 0xb7c45a68142f214c as bv64;
    } else if i == 3 {
      assert 0xa54ff53a5f1d36f1 ^ 0x97df596b0610f6fc ^ 0xe332538a36b6d246 == 0xd1a2ffdb6fbb124b as bv64;
    } else if i == 4 {
      assert 0x510e527fade682d1 ^ 0xf42c16519ad5afa7 ^ 0x885bef040ef6aa0b == 0x2d79ab2a39c5877d as bv64;
    } else if i == 5 {
      assert 0x9b05688c2b3e6c1f ^ 0xaa5ac1888e10467e ^ 0xa4939a417bfb78a3 == 0x95cc3345ded552c2 as bv64;
    } else if i == 6 {
      assert 0x1f83d9abfb41bd6b ^ 0x217d930aa51787f3 ^ 0x646cbb7af6dce980 == 0x5a92f1dba88ad318 as bv64;
    } else if i == 7 {
      assert 0x5be0cd19137e2179 ^ 0x906a6ff19e573942 ^ 0xe813a23c60af3b82 == 0x239900d4ed8623b9 as bv64;
    }
  }

  /** The hash of "abc" in 64 bytes, as appendix A of RFC 7693 has it. */
  lemma Blake2bOfAbc()
    ensures Digest(V2b, 64, [], ABC) ==
      [0xba, 0x80, 0xa5, 0x3f, 0x98, 0x1c, 0x4d, 0x0d] +
      [0x6a, 0x27, 0x97, 0xb6, 0x9f, 0x12, 0xf6, 0xe9] +
      [0x4c, 0x21, 0x2f, 0x14, 0x68, 0x5a, 0xc4, 0xb7] +
      [0x4b, 0x12, 0xbb, 0x6f, 0xdb, 0xff, 0xa2, 0xd1] +
      [0x7d, 0x87, 0xc5, 0x39, 0x2a, 0xab, 0x79, 0x2d] +
      [0xc2, 0x52, 0xd5, 0xde, 0x45, 0x33, 0xcc, 0x95] +
      [0x18, 0xd3, 0x8a, 0xa8, 0xdb, 0xf1, 0x92, 0x5a] +
      [0xb9, 0x23, 0x86, 0xed, 0xd4, 0x00, 0x99, 0x23]
  {
    hide Blake2b.Compress, Padded, InitialChain, Chain.Bytes, Finished, F, Blake2b.Xor, H64;
    var h := Blake2b.IV[0 := Blake2b.Xor(Blake2b.IV[0], 0x01010040)];
    SequentialStart64(64, 0);
    StartWord64();
    Compressed64(h);
    var o := Start(V2b, Sequential(64, 0));
    assert KeyBlock(V2b, []) + ABC == ABC;
    OneBlock(V2b, o);
    First64(h);
    Bytes64();
  }

  lemma First64(h: seq<bv64>)
    requires |h| == 8
    ensures F(V2b, C64(h), Padded(ABC, 128), 3, true, false) ==
            C64(Blake2b.Compress(h, Padded(ABC, 128), 3, 0, Flag64(true), Flag64(false)))
  {
    hide Blake2b.Compress, Padded, Flag64;
    var m := Variant.V2b.Modulus();
    assert 3 % m == 3 && 3 / m == 0;
    Three64(3 % m, 3 / m);
  }

  lemma Three64(x: nat, y: nat)
    requires x == 3 && y == 0
    ensures x as bv64 == 3 && y as bv64 == 0
  {}

  lemma StartWord64()
    ensures 0x0101_0000 ^ (((0 as byte) as bv64) << 8) ^ ((64 as byte) as bv64) == 0x01010040
  {}

  lemma Bytes64()
    ensures C64(H64).Bytes(V2b) ==
      [0xba, 0x80, 0xa5, 0x3f, 0x98, 0x1c, 0x4d, 0x0d] +
      [0x6a, 0x27, 0x97, 0xb6, 0x9f, 0x12, 0xf6, 0xe9] +
      [0x4c, 0x21, 0x2f, 0x14, 0x68, 0x5a, 0xc4, 0xb7] +
      [0x4b, 0x12, 0xbb, 0x6f, 0xdb, 0xff, 0xa2, 0xd1] +
      [0x7d, 0x87, 0xc5, 0x39, 0x2a, 0xab, 0x79, 0x2d] +
      [0xc2, 0x52, 0xd5, 0xde, 0x45, 0x33, 0xcc, 0x95] +
      [0x18, 0xd3, 0x8a, 0xa8, 0xdb, 0xf1, 0x92, 0x5a] +
      [0xb9, 0x23, 0x86, 0xed, 0xd4, 0x00, 0x99, 0x23]
  {
    assert Store64(H64[0]) == [0xba, 0x80, 0xa5, 0x3f, 0x98, 0x1c, 0x4d, 0x0d];
    assert Store64(H64[1]) == [0x6a, 0x27, 0x97, 0xb6, 0x9f, 0x12, 0xf6, 0xe9];
    assert Store64(H64[2]) == [0x4c, 0x21, 0x2f, 0x14, 0x68, 0x5a, 0xc4, 0xb7];
    assert Store64(H64[3]) == [0x4b, 0x12, 0xbb, 0x6f, 0xdb, 0xff, 0xa2, 0xd1];
    assert Store64(H64[4]) == [0x7d, 0x87, 0xc5, 0x39, 0x2a, 0xab, 0x79, 0x2d];
    assert Store64(H64[5]) == [0xc2, 0x52, 0xd5, 0xde, 0x45, 0x33, 0xcc, 0x95];
    assert Store64(H64[6]) == [0x18, 0xd3, 0x8a, 0xa8, 0xdb, 0xf1, 0x92, 0x5a];
    assert Store64(H64[7]) == [0xb9, 0x23, 0x86, 0xed, 0xd4, 0x00, 0x99, 0x23];
    hide Store64;
  }

  lemma Next32(n: nat, v: seq<bv32>)
    requires n < Blake2s.ROUNDS && |v| == 16 && AfterRounds(Blake2s.Arithmetic(), Blake2s.Rows(), V32_0, M32, n) == v
    ensures AfterRounds(Blake2s.Arithmetic(), Blake2s.Rows(), V32_0, M32, n + 1) ==
            Round(Blake2s.Arithmetic(), v, Scheduled(M32, Blake2s.Sigma(n)))
  {
    hide Round, Blake2s.Sigma;
  }

  lemma NoRounds32()
    ensures AfterRounds(Blake2s.Arithmetic(), Blake2s.Rows(), V32_0, M32, 0) == V32_0
  {}

  lemma AllRounds32()
    ensures AfterRounds(Blake2s.Arithmetic(), Blake2s.Rows(), V32_0, M32, 10) == V32_10
  {
    NoRounds32();
    hide Round, Blake2s.Sigma, Scheduled, M32, V32_0, V32_1, V32_2, V32_3, V32_4, V32_5, V32_6, V32_7, V32_8, V32_9,
         V32_10;
    Next32(0, V32_0);
    Round32_0();
    Next32(1, V32_1);
    Round32_1();
    Next32(2, V32_2);
    Round32_2();
    Next32(3, V32_3);
    Round32_3();
    Next32(4, V32_4);
    Round32_4();
    Next32(5, V32_5);
    Round32_5();
    Next32(6, V32_6);
    Round32_6();
    Next32(7, V32_7);
    Round32_7();
    Next32(8, V32_8);
    Round32_8();
    Next32(9, V32_9);
    Round32_9();
  }

  lemma Words32()
    ensures Blake2s.Words(Padded(ABC, 64)) == M32
  {
    var p := Padded(ABC, 64);
    assert p[0] == 0x61 && p[1] == 0x62 && p[2] == 0x63 && forall i :: 3 <= i < 64 ==> p[i] == 0;
    FirstWord32(p[..4]);
    assert p[0..4] == p[..4];
    forall i | 1 <= i < 16
      ensures Load32(p[4 * i..4 * i + 4]) == 0
    {
      NoWord32(p[4 * i..4 * i + 4]);
    }
    hide Load32;
    assert Blake2s.Words(p) == M32;
  }

  lemma FirstWord32(s: seq<byte>)
    requires |s| == 4 && s[0] == 0x61 && s[1] == 0x62 && s[2] == 0x63 && forall i :: 3 <= i < 4 ==> s[i] == 0
    ensures Load32(s) == 0x636261
  {}

  lemma NoWord32(s: seq<byte>)
    requires |s| == 4 && forall i :: 0 <= i < 4 ==> s[i] == 0
    ensures Load32(s) == 0
  {}

  /** The chaining value at the end. */
  const H32: seq<bv32> :=
    [0x8c5e8c50, 0xe2147c32, 0xa32ba7e1, 0x2f45eb4e, 0x208b4537, 0x293ad69e, 0x4c9b994d, 0x82596786]

  lemma Compressed32(h: seq<bv32>)
    requires h == Blake2s.IV[0 := Blake2s.Xor(Blake2s.IV[0], 0x01010020)]
    ensures Blake2s.Compress(h, Padded(ABC, 64), 3, 0, Flag32(true), Flag32(false)) == H32
  {
    Words32();
    AllRounds32();
    Begin32(h);
    hide AfterRounds, Blake2s.Words, Blake2s.Initial;
    Forward32(h);
  }

  lemma Begin32(h: seq<bv32>)
    requires h == Blake2s.IV[0 := Blake2s.Xor(Blake2s.IV[0], 0x01010020)]
    ensures Blake2s.Initial(h, 3, 0, Flag32(true), Flag32(false)) == V32_0
  {}

  lemma Forward32(h: seq<bv32>)
    requires h == Blake2s.IV[0 := Blake2s.Xor(Blake2s.IV[0], 0x01010020)]
    ensures FeedForward(Blake2s.Arithmetic(), h, V32_10) == H32
  {
    var f := FeedForward(Blake2s.Arithmetic(), h, V32_10);
    forall i | 0 <= i < 8
      ensures f[i] == H32[i]
    {
      Word32(h, i);
    }
  }

  lemma Word32(h: seq<bv32>, i: nat)
    requires h == Blake2s.IV[0 := Blake2s.Xor(Blake2s.IV[0], 0x01010020)] && i < 8
    ensures Blake2s.Xor(Blake2s.Xor(h[i], V32_10[i]), V32_10[i + 8]) == H32[i]
  {
    if i == 0 {
      assert 0x6b08e647 ^ 0xd9c994aa ^ 0x3e9ffebd == 0x8c5e8c50 as bv32;
    } else if i == 1 {
      assert 0xbb67ae85 ^ 0xcfec3aa6 ^ 0x969fe811 == 0xe2147c32 as bv32;
    } else if i == 2 {
      assert 0x3c6ef372 ^ 0x700d0ab2 ^ 0xef485e21 == 0xa32ba7e1 as bv32;
    } else if i == 3 {
      assert 0xa54ff53a ^ 0x2c38670e ^ 0xa632797a == 0x2f45eb4e as bv32;
    } else if i == 4 {
      assert 0x510e527f ^ 0xaf6a1f66 ^ 0xdeef082e == 0x208b4537 as bv32;
    } else if i == 5 {
      assert 0x9b05688c ^ 0x1d023ef3 ^ 0xaf3d80e1 == 0x293ad69e as bv32;
    } else if i == 6 {
      assert 0x1f83d9ab ^ 0x1d9ec27d ^ 0x4e86829b == 0x4c9b994d as bv32;
    } else if i == 7 {
      assert 0x5be0cd19 ^ 0x945357a5 ^ 0x4deafd3a == 0x82596786 as bv32;
    }
  }

  /** The hash of "abc" in 32 bytes, as appendix B of RFC 7693 has it. */
  lemma Blake2sOfAbc()
    ensures Digest(V2s, 32, [], ABC) ==
      [0x50, 0x8c, 0x5e, 0x8c] +
      [0x32, 0x7c, 0x14, 0xe2] +
      [0xe1, 0xa7, 0x2b, 0xa3] +
      [0x4e, 0xeb, 0x45, 0x2f] +
      [0x37, 0x45, 0x8b, 0x20] +
      [0x9e, 0xd6, 0x3a, 0x29] +
      [0x4d, 0x99, 0x9b, 0x4c] +
      [0x86, 0x67, 0x59, 0x82]
  {
    hide Blake2s.Compress, Padded, InitialChain, Chain.Bytes, Finished, F, Blake2s.Xor, H32;
    var h := Blake2s.IV[0 := Blake2s.Xor(Blake2s.IV[0], 0x01010020)];
    SequentialStart32(32, 0);
    StartWord32();
    Compressed32(h);
    var o := Start(V2s, Sequential(32, 0));
    assert KeyBlock(V2s, []) + ABC == ABC;
    OneBlock(V2s, o);
    First32(h);
    Bytes32();
  }

  lemma First32(h: seq<bv32>)
    requires |h| == 8
    ensures F(V2s, C32(h), Padded(ABC, 64), 3, true, false) ==
            C32(Blake2s.Compress(h, Padded(ABC, 64), 3, 0, Flag32(true), Flag32(false)))
  {
    hide Blake2s.Compress, Padded, Flag32;
    var m := Variant.V2s.Modulus();
    assert 3 % m == 3 && 3 / m == 0;
    Three32(3 % m, 3 / m);
  }

  lemma Three32(x: nat, y: nat)
    requires x == 3 && y == 0
    ensures x as bv32 == 3 && y as bv32 == 0
  {}

  lemma StartWord32()
    ensures 0x0101_0000 ^ (((0 as byte) as bv32) << 8) ^ ((32 as byte) as bv32) == 0x01010020
  {}

  lemma Bytes32()
    ensures C32(H32).Bytes(V2s) ==
      [0x50, 0x8c, 0x5e, 0x8c] +
      [0x32, 0x7c, 0x14, 0xe2] +
      [0xe1, 0xa7, 0x2b, 0xa3] +
      [0x4e, 0xeb, 0x45, 0x2f] +
      [0x37, 0x45, 0x8b, 0x20] +
      [0x9e, 0xd6, 0x3a, 0x29] +
      [0x4d, 0x99, 0x9b, 0x4c] +
      [0x86, 0x67, 0x59, 0x82]
  {
    assert Store32(H32[0]) == [0x50, 0x8c, 0x5e, 0x8c];
    assert Store32(H32[1]) == [0x32, 0x7c, 0x14, 0xe2];
    assert Store32(H32[2]) == [0xe1, 0xa7, 0x2b, 0xa3];
    assert Store32(H32[3]) == [0x4e, 0xeb, 0x45, 0x2f];
    assert Store32(H32[4]) == [0x37, 0x45, 0x8b, 0x20];
    assert Store32(H32[5]) == [0x9e, 0xd6, 0x3a, 0x29];
    assert Store32(H32[6]) == [0x4d, 0x99, 0x9b, 0x4c];
    assert Store32(H32[7]) == [0x86, 0x67, 0x59, 0x82];
    hide Store32;
  }
}
