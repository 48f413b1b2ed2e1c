/** Lock placement ends: the loop of `generate` that draws cells until the vault has its
    locks has no bound of its own, but from every state of the generator, on every valid
    board size, the stream in the end points to a cell that is still free.

    The 32-bit state runs through all its values, so a state that leads to a given draw is
    always reached again. The rows below name, for 72 cells, a state whose output points to
    that cell whatever the (valid) board size: the output is the cell number plus a multiple
    of 768398400, which every product of two sides between 4 and 12 divides. */
module LockTermination {
  import opened Arithmetic
  import opened Words
  import opened Rng
  import opened Generators
  import opened Config
  import opened Play

  const COMMON: nat := 768398400

  /** Cells for which no such output exists. */
  predicate Missing(v: nat) {
    v == 10 || v == 19 || v == 29 || v == 66
  }

  /** Some state has output `v` plus a multiple of COMMON. */
  ghost predicate Reached(v: nat) {
    exists s: bv32, k: nat :: Leads(s, v, k)
  }

  ghost predicate Leads(s: bv32, v: nat, k: nat) {
    k <= 5 && Mix(s) == Word(v + k * COMMON)
  }

  /** The multiples of COMMON as words. */
  function Offset(k: nat): bv32 {
    if k == 0 then 0
    else if k == 1 then 768398400
    else if k == 2 then 1536796800
    else if k == 3 then 2305195200
    else if k == 4 then 3073593600
    else 3841992000
  }

  lemma CommonWord()
    ensures Word(COMMON) == 768398400
  {
    hide Word;
    WordSucc(0);
    WordDouble(1);
    WordDouble(2);
    WordDouble(5);
    WordDouble(11);
    WordDouble(22);
    WordDouble(45);
    WordDouble(91);
    WordDouble(183);
    WordDouble(366);
    WordDouble(732);
    WordDouble(1465);
    WordDouble(2931);
    WordDouble(5862);
    WordDouble(11724);
    WordDouble(23449);
    WordDouble(46899);
    WordDouble(93798);
    WordDouble(187597);
    WordDouble(375194);
    WordDouble(750389);
    WordDouble(1500778);
    WordDouble(3001556);
    WordDouble(6003112);
    WordDouble(12006225);
    WordDouble(24012450);
    WordDouble(48024900);
    WordDouble(96049800);
    WordDouble(192099600);
    WordDouble(384199200);
  }

  lemma OffsetIs(k: nat)
    requires k <= 5
    ensures Offset(k) == Word(k * COMMON)
    decreases k
  {
    hide Word;
    if k == 0 {
      WordSucc(0);
    } else {
      CommonWord();
      OffsetIs(k - 1);
      WordAdd((k - 1) * COMMON, COMMON);
      assert (k - 1) * COMMON + COMMON == k * COMMON;
    }
  }

  /** One output, computed by hand: every intermediate word is given. */
  lemma Row(v: nat, k: nat, s: bv32, c: bv32, a: bv32, o: bv32, t: bv32, d: bv32, b: bv32, p: bv32, m: bv32, q: bv32,
          u: bv32, e: bv32, r: bv32)
    requires Shr(s, 15) == c && Xor(s, c) == a && Or(1, s) == o && Times(a, o) == t
    requires Shr(t, 7) == d && Xor(t, d) == b && Or(61, t) == p && Times(b, p) == m
    requires Plus(t, m) == q && Xor(q, t) == u && Shr(u, 14) == e && Xor(u, e) == r
    requires k <= 5 && Plus(Word(v), Offset(k)) == r
    ensures Reached(v)
  {
    hide Shr, Xor, Or, Times, Plus, Word, Offset;
    OffsetIs(k);
    WordAdd(v, k * COMMON);
    assert Leads(s, v, k);
  }

  lemma Rows0()
    ensures Word(8) == 8
    ensures forall v: nat :: 0 <= v < 8 && !Missing(v) ==> Reached(v)
  {
    hide Word, Mix, Reached;
    WordSucc(0);
    WordSucc(1);
    WordSucc(2);
    WordSucc(3);
    WordSucc(4);
    WordSucc(5);
    WordSucc(6);
    WordSucc(7);
    forall v: nat | 0 <= v < 8 && !Missing(v) ensures Reached(v) {
      if v == 0 {
        Row(0, 0, 0x0, 0x0, 0x0, 0x1, 0x0, 0x0, 0x0, 0x3d, 0x0, 0x0, 0x0, 0x0, 0x0);
      } else if v == 1 {
        Row(1, 0, 0xf31772f0, 0x1e62e, 0xf31694de, 0xf31772f1, 0x7f00fe, 0xfe01, 0x7ffeff, 0x7f00ff, 0x1, 0x7f00ff,
            0x1, 0x0, 0x1);
      } else if v == 2 {
        Row(2, 0, 0xc717a7ac, 0x18e2f, 0xc7162983, 0xc717a7ad, 0x8ed38287, 0x11da705, 0x8fce2582, 0x8ed382bf,
            0xfffffffe, 0x8ed38285, 0x2, 0x0, 0x2);
      } else if v == 3 {
        Row(3, 0, 0xdbde115e, 0x1b7bc, 0xdbdfa6e2, 0xdbde115f, 0x800fefde, 0x1001fdf, 0x810ff001, 0x800fefff,
            0xffffffff, 0x800fefdd, 0x3, 0x0, 0x3);
      } else if v == 4 {
        Row(4, 3, 0xa3ae34c1, 0x1475c, 0xa3af739d, 0xa3ae34c1, 0x96780d5d, 0x12cf01a, 0x9754fd47, 0x96780d7d,
            0x88a446ab, 0x1f1c5408, 0x89645955, 0x22591, 0x89667cc4);
      } else if v == 5 {
        Row(5, 0, 0x1821ccf9, 0x3043, 0x1821fcba, 0x1821ccf9, 0x926d08ea, 0x124da11, 0x9349d2fb, 0x926d08ff, 0x5,
            0x926d08ef, 0x5, 0x0, 0x5);
      } else if v == 6 {
        Row(6, 0, 0x56f6176, 0xade, 0x56f6ba8, 0x56f6177, 0xb46db318, 0x168db66, 0xb505687e, 0xb46db33d, 0x6,
            0xb46db31e, 0x6, 0x0, 0x6);
      } else if v == 7 {
        Row(7, 0, 0xce32323a, 0x19c64, 0xce33ae5e, 0xce32323b, 0x50538baa, 0xa0a717, 0x50f32cbd, 0x50538bbf, 0x3,
            0x50538bad, 0x7, 0x0, 0x7);
      }
    }
  }

  lemma Rows8()
    ensures Word(16) == 16
    ensures forall v: nat :: 8 <= v < 16 && !Missing(v) ==> Reached(v)
  {
    hide Word, Mix, Reached;
    Rows0();
    WordSucc(8);
    WordSucc(9);
    WordSucc(10);
    WordSucc(11);
    WordSucc(12);
    WordSucc(13);
    WordSucc(14);
    WordSucc(15);
    forall v: nat | 8 <= v < 16 && !Missing(v) ensures Reached(v) {
      if v == 8 {
        Row(8, 3, 0x2e4f1d65, 0x5c9e, 0x2e4f41fb, 0x2e4f1d65, 0xb6337707, 0x16c66ee, 0xb75f11e9, 0xb633773f,
            0x8923b757, 0x3f572e5e, 0x89645959, 0x22591, 0x89667cc8);
      } else if v == 9 {
        Row(9, 0, 0xa6344c1d, 0x14c68, 0xa6350075, 0xa6344c1d, 0x85e7c941, 0x10bcf92, 0x84ec06d3, 0x85e7c97d, 0x7,
            0x85e7c948, 0x9, 0x0, 0x9);
      } else if v == 11 {
        Row(11, 0, 0x3ac32510, 0x7586, 0x3ac35096, 0x3ac32511, 0x7fe007f6, 0xffc00f, 0x7f1fc7f9, 0x7fe007ff, 0x7,
            0x7fe007fd, 0xb, 0x0, 0xb);
      } else if v == 12 {
        Row(12, 1, 0x52df634c, 0xa5be, 0x52dfc6f2, 0x52df634d, 0x480c6cca, 0x9018d9, 0x489c7413, 0x480c6cff,
            0x1db3a2ed, 0x65c00fb7, 0x2dcc637d, 0xb731, 0x2dccd44c);
      } else if v == 13 {
        Row(13, 0, 0xd71e9c65, 0x1ae3d, 0xd71f3258, 0xd71e9c65, 0xb04c7cb8, 0x16098f9, 0xb12ce441, 0xb04c7cbd,
            0xfffffffd, 0xb04c7cb5, 0xd, 0x0, 0xd);
      } else if v == 14 {
        Row(14, 1, 0x72b6f369, 0xe56d, 0x72b61604, 0x72b6f369, 0x526cd3a4, 0xa4d9a7, 0x52c80a03, 0x526cd3bd,
            0x2d33dd37, 0x7fa0b0db, 0x2dcc637f, 0xb731, 0x2dccd44e);
      } else if v == 15 {
        Row(15, 0, 0xe37d41c6, 0x1c6fa, 0xe37c873c, 0xe37d41c7, 0xb06f5ba4, 0x160deb7, 0xb10f8513, 0xb06f5bbd, 0x7,
            0xb06f5bab, 0xf, 0x0, 0xf);
      }
    }
  }

  lemma Rows16()
    ensures Word(24) == 24
    ensures forall v: nat :: 16 <= v < 24 && !Missing(v) ==> Reached(v)
  {
    hide Word, Mix, Reached;
    Rows8();
    WordSucc(16);
    WordSucc(17);
    WordSucc(18);
    WordSucc(19);
    WordSucc(20);
    WordSucc(21);
    WordSucc(22);
    WordSucc(23);
    forall v: nat | 16 <= v < 24 && !Missing(v) ensures Reached(v) {
      if v == 16 {
        Row(16, 4, 0xcea4d6a0, 0x19d49, 0xcea54be9, 0xcea4d6a1, 0x42ad8389, 0x855b07, 0x4228d88e, 0x42ad83bd,
            0xb2ee8ad6, 0xf59c0e5f, 0xb7318dd6, 0x2dcc6, 0xb7335110);
      } else if v == 17 {
        Row(17, 1, 0xa4d4efe9, 0x149a9, 0xa4d5a640, 0xa4d4efe9, 0x29aa1040, 0x535420, 0x29f94460, 0x29aa107d,
            0xdabc62e0, 0x4667320, 0x2dcc6360, 0xb731, 0x2dccd451);
      } else if v == 18 {
        Row(18, 4, 0x5b4c435c, 0xb698, 0x5b4cf5c4, 0x5b4c435d, 0xf1779434, 0x1e2ef28, 0xf0957b1c, 0xf177943d,
            0x54ce85ac, 0x464619e0, 0xb7318dd4, 0x2dcc6, 0xb7335112);
      } else if v == 20 {
        Row(20, 0, 0x305edad, 0x60b, 0x305eba6, 0x305edad, 0x1266ed2e, 0x24cdda, 0x124220f4, 0x1266ed3f, 0xc,
            0x1266ed3a, 0x14, 0x0, 0x14);
      } else if v == 21 {
        Row(21, 0, 0x21bd930b, 0x437b, 0x21bdd070, 0x21bd930b, 0xc48844d0, 0x1891089, 0xc5015459, 0xc48844fd,
            0xfffffff5, 0xc48844c5, 0x15, 0x0, 0x15);
      } else if v == 22 {
        Row(22, 0, 0x34333631, 0x6866, 0x34335e57, 0x34333631, 0x4b1068a7, 0x9620d1, 0x4b864876, 0x4b1068bf, 0xa,
            0x4b1068b1, 0x16, 0x0, 0x16);
      } else if v == 23 {
        Row(23, 0, 0xa76be1bb, 0x14ed7, 0xa76aaf6c, 0xa76be1bb, 0xd5400fe4, 0x1aa801f, 0xd4ea8ffb, 0xd5400ffd, 0xf,
            0xd5400ff3, 0x17, 0x0, 0x17);
      }
    }
  }

  lemma Rows24()
    ensures Word(32) == 32
    ensures forall v: nat :: 24 <= v < 32 && !Missing(v) ==> Reached(v)
  {
    hide Word, Mix, Reached;
    Rows16();
    WordSucc(24);
    WordSucc(25);
    WordSucc(26);
    WordSucc(27);
    WordSucc(28);
    WordSucc(29);
    WordSucc(30);
    WordSucc(31);
    forall v: nat | 24 <= v < 32 && !Missing(v) ensures Reached(v) {
      if v == 24 {
        Row(24, 1, 0x6058de9f, 0xc0b1, 0x60581e2e, 0x6058de9f, 0xe0b6a292, 0x1c16d45, 0xe177cfd7, 0xe0b6a2bf,
            0xecc41f69, 0xcd7ac1fb, 0x2dcc6369, 0xb731, 0x2dccd458);
      } else if v == 25 {
        Row(25, 1, 0x5604c415, 0xac09, 0x5604681c, 0x5604c415, 0x7681fa4c, 0xed03f4, 0x766cf9b8, 0x7681fa7d,
            0xe4cb9ed8, 0x5b4d9924, 0x2dcc6368, 0xb731, 0x2dccd459);
      } else if v == 26 {
        Row(26, 0, 0xc3225e, 0x186, 0xc323d8, 0xc3225f, 0x80b4fd28, 0x10169fa, 0x81b594d2, 0x80b4fd3d, 0xa, 0x80b4fd32,
            0x1a, 0x0, 0x1a);
      } else if v == 27 {
        Row(27, 0, 0xb5996617, 0x16b32, 0xb5980d25, 0xb5996617, 0xea02ec53, 0x1d405d8, 0xebd6e98b, 0xea02ec7f,
            0xfffffff5, 0xea02ec48, 0x1b, 0x0, 0x1b);
      } else if v == 28 {
        Row(28, 1, 0x979074a, 0x12f2, 0x97915b8, 0x979074b, 0xd20964e8, 0x1a412c9, 0xd3ad7621, 0xd20964fd, 0x2dbba29d,
            0xffc50785, 0x2dcc636d, 0xb731, 0x2dccd45c);
      } else if v == 30 {
        Row(30, 2, 0xafa4e648, 0x15f49, 0xafa5b901, 0xafa4e649, 0x2e1ca749, 0x5c394e, 0x2e409e07, 0x2e1ca77d,
            0x4767ba6b, 0x758461b4, 0x5b98c6fd, 0x16e63, 0x5b99a89e);
      } else if v == 31 {
        Row(31, 1, 0x8e2053c, 0x11c4, 0x8e214f8, 0x8e2053d, 0xcb37d718, 0x1966fae, 0xcaa1b8b6, 0xcb37d73d, 0x1bc3dd5e,
            0xe6fbb476, 0x2dcc636e, 0xb731, 0x2dccd45f);
      }
    }
  }

  lemma Rows32()
    ensures Word(40) == 40
    ensures forall v: nat :: 32 <= v < 40 && !Missing(v) ==> Reached(v)
  {
    hide Word, Mix, Reached;
    Rows24();
    WordSucc(32);
    WordSucc(33);
    WordSucc(34);
    WordSucc(35);
    WordSucc(36);
    WordSucc(37);
    WordSucc(38);
    WordSucc(39);
    forall v: nat | 32 <= v < 40 && !Missing(v) ensures Reached(v) {
      if v == 32 {
        Row(32, 0, 0x2b6c8616, 0x56d9, 0x2b6cd0cf, 0x2b6c8617, 0xb8671c99, 0x170ce39, 0xb917d2a0, 0xb8671cbd, 0x20,
            0xb8671cb9, 0x20, 0x0, 0x20);
      } else if v == 33 {
        Row(33, 0, 0x1c99379e, 0x3932, 0x1c990eac, 0x1c99379f, 0x3a0310d4, 0x740621, 0x3a7716f5, 0x3a0310fd, 0x21,
            0x3a0310f5, 0x21, 0x0, 0x21);
      } else if v == 34 {
        Row(34, 1, 0xc36a507a, 0x186d4, 0xc36bd6ae, 0xc36a507b, 0x5f2859a, 0xbe50b, 0x5f96091, 0x5f285bf, 0x224c612f,
            0x283ee6c9, 0x2dcc6353, 0xb731, 0x2dccd462);
      } else if v == 35 {
        Row(35, 0, 0x2cfc9ad3, 0x59f9, 0x2cfcc32a, 0x2cfc9ad3, 0x77141f9e, 0xee283f, 0x77fa37a1, 0x77141fbf, 0x1f,
            0x77141fbd, 0x23, 0x0, 0x23);
      } else if v == 36 {
        Row(36, 5, 0xa41e9d69, 0x1483d, 0xa41fd554, 0xa41e9d69, 0xa6bb0374, 0x14d7606, 0xa7f67572, 0xa6bb037d,
            0x9cfdaeaa, 0x43b8b21e, 0xe503b16a, 0x3940e, 0xe5002564);
      } else if v == 37 {
        Row(37, 2, 0x2e5f241c, 0x5cbe, 0x2e5f78a2, 0x2e5f241d, 0x8de5725a, 0x11bcae4, 0x8cfeb8be, 0x8de5727f,
            0x48984242, 0xd67db49c, 0x5b98c6c6, 0x16e63, 0x5b99a8a5);
      } else if v == 38 {
        Row(38, 1, 0xbd89783c, 0x17b12, 0xbd88032e, 0xbd89783d, 0x948451f6, 0x12908a3, 0x95ad5955, 0x948451ff,
            0x24c3e0ab, 0xb94832a1, 0x2dcc6357, 0xb731, 0x2dccd466);
      } else if v == 39 {
        Row(39, 0, 0x62455f63, 0xc48a, 0x62459be9, 0x62455f63, 0xd93c21b, 0x1b2784, 0xd88e59f, 0xd93c23f, 0x21,
            0xd93c23c, 0x27, 0x0, 0x27);
      }
    }
  }

  lemma Rows40()
    ensures Word(48) == 48
    ensures forall v: nat :: 40 <= v < 48 && !Missing(v) ==> Reached(v)
  {
    hide Word, Mix, Reached;
    Rows32();
    WordSucc(40);
    WordSucc(41);
    WordSucc(42);
    WordSucc(43);
    WordSucc(44);
    WordSucc(45);
    WordSucc(46);
    WordSucc(47);
    forall v: nat | 40 <= v < 48 && !Missing(v) ensures Reached(v) {
      if v == 40 {
        Row(40, 0, 0x83de0929, 0x107bc, 0x83df0e95, 0x83de0929, 0xda7292dd, 0x1b4e525, 0xdbc677f8, 0xda7292fd, 0x18,
            0xda7292f5, 0x28, 0x0, 0x28);
      } else if v == 41 {
        Row(41, 0, 0x151c93a, 0x2a3, 0x151cb99, 0x151c93b, 0x8b1e0d43, 0x1163c1a, 0x8a083159, 0x8b1e0d7f, 0x27,
            0x8b1e0d6a, 0x29, 0x0, 0x29);
      } else if v == 42 {
        Row(42, 1, 0x2ed83c78, 0x5db0, 0x2ed861c8, 0x2ed83c79, 0x4bf11788, 0x97e22f, 0x4b66f5a7, 0x4bf117bd,
            0x1a4c5d4b, 0x663d74d3, 0x2dcc635b, 0xb731, 0x2dccd46a);
      } else if v == 43 {
        Row(43, 1, 0x9a71077c, 0x134e2, 0x9a70339e, 0x9a71077d, 0x4ef08626, 0x9de10c, 0x4e6d672a, 0x4ef0863f,
            0x144c5f56, 0x633ce57c, 0x2dcc635a, 0xb731, 0x2dccd46b);
      } else if v == 44 {
        Row(44, 1, 0x7d874117, 0xfb0e, 0x7d87ba19, 0x7d874117, 0x15a1113f, 0x2b4222, 0x158a531d, 0x15a1113f,
            0x22cc6123, 0x386d7262, 0x2dcc635d, 0xb731, 0x2dccd46c);
      } else if v == 45 {
        Row(45, 0, 0xb0a3358a, 0x16146, 0xb0a254cc, 0xb0a3358b, 0xc19646c4, 0x1832c8d, 0xc0156a49, 0xc19646fd, 0x25,
            0xc19646e9, 0x2d, 0x0, 0x2d);
      } else if v == 46 {
        Row(46, 1, 0x7b687f10, 0xf6d0, 0x7b6889c0, 0x7b687f11, 0x444765c0, 0x888ecb, 0x44cfeb0b, 0x444765fd,
            0x2543a0df, 0x698b069f, 0x2dcc635f, 0xb731, 0x2dccd46e);
      } else if v == 47 {
        Row(47, 1, 0xcb3aabe4, 0x19675, 0xcb3b3d91, 0xcb3aabe5, 0x4bf7edb5, 0x97efdb, 0x4b60026e, 0x4bf7edbd,
            0x1a43a136, 0x663b8eeb, 0x2dcc635e, 0xb731, 0x2dccd46f);
      }
    }
  }

  lemma Rows48()
    ensures Word(56) == 56
    ensures forall v: nat :: 48 <= v < 56 && !Missing(v) ==> Reached(v)
  {
    hide Word, Mix, Reached;
    Rows40();
    WordSucc(48);
    WordSucc(49);
    WordSucc(50);
    WordSucc(51);
    WordSucc(52);
    WordSucc(53);
    WordSucc(54);
    WordSucc(55);
    forall v: nat | 48 <= v < 56 && !Missing(v) ensures Reached(v) {
      if v == 48 {
        Row(48, 1, 0x59961636, 0xb32c, 0x5996a51a, 0x59961637, 0xf8c9b496, 0x1f19369, 0xf93827ff, 0xf8c9b4bf,
            0xdc3c2341, 0xd505d7d7, 0x2dcc6341, 0xb731, 0x2dccd470);
      } else if v == 49 {
        Row(49, 0, 0x2f3e9e02, 0x5e7d, 0x2f3ec07f, 0x2f3e9e03, 0x384ca37d, 0x709946, 0x383c3a3b, 0x384ca37d,
            0xffffffcf, 0x384ca34c, 0x31, 0x0, 0x31);
      } else if v == 50 {
        Row(50, 1, 0xd907ae6, 0x1b20, 0xd9061c6, 0xd907ae7, 0x194095aa, 0x32812b, 0x19721481, 0x194095bf, 0x1b4c613f,
            0x348cf6e9, 0x2dcc6343, 0xb731, 0x2dccd472);
      } else if v == 51 {
        Row(51, 4, 0xb43ef081, 0x1687d, 0xb43f98fc, 0xb43ef081, 0xb08056fc, 0x16100ad, 0xb1e15651, 0xb08056fd,
            0x5731840d, 0x7b1db09, 0xb7318df5, 0x2dcc6, 0xb7335133);
      } else if v == 52 {
        Row(52, 3, 0xf27a342, 0x1e4f, 0xf27bd0d, 0xf27a343, 0xd4c0c167, 0x1a98182, 0xd56940e5, 0xd4c0c17f, 0x88e3d69b,
            0x5da49802, 0x89645965, 0x22591, 0x89667cf4);
      } else if v == 53 {
        Row(53, 0, 0x4183935f, 0x8307, 0x41831058, 0x4183935f, 0x470d98a8, 0x8e1b31, 0x47838399, 0x470d98bd,
            0xfffffff5, 0x470d989d, 0x35, 0x0, 0x35);
      } else if v == 54 {
        Row(54, 0, 0x8d3c74ea, 0x11a78, 0x8d3d6e92, 0x8d3c74eb, 0xd1b6a806, 0x1a36d50, 0xd015c556, 0xd1b6a83f, 0x2a,
            0xd1b6a830, 0x36, 0x0, 0x36);
      } else if v == 55 {
        Row(55, 1, 0x38acc287, 0x7159, 0x38acb3de, 0x38acc287, 0x2c891612, 0x59122c, 0x2cd0043e, 0x2c89163f,
            0xd4bc5f42, 0x1457554, 0x2dcc6346, 0xb731, 0x2dccd477);
      }
    }
  }

  lemma Rows56()
    ensures Word(64) == 64
    ensures forall v: nat :: 56 <= v < 64 && !Missing(v) ==> Reached(v)
  {
    hide Word, Mix, Reached;
    Rows48();
    WordSucc(56);
    WordSucc(57);
    WordSucc(58);
    WordSucc(59);
    WordSucc(60);
    WordSucc(61);
    WordSucc(62);
    WordSucc(63);
    forall v: nat | 56 <= v < 64 && !Missing(v) ensures Reached(v) {
      if v == 56 {
        Row(56, 1, 0xcd0e43b5, 0x19a1c, 0xcd0fd9a9, 0xcd0e43b5, 0x5e6a1f7d, 0xbcd43e, 0x5ed6cb43, 0x5e6a1f7d,
            0x153c5cb7, 0x73a67c34, 0x2dcc6349, 0xb731, 0x2dccd478);
      } else if v == 57 {
        Row(57, 0, 0xd4ab8c56, 0x1a957, 0xd4aa2501, 0xd4ab8c57, 0xddba1f57, 0x1bb743e, 0xdc016b69, 0xddba1f7f, 0x17,
            0xddba1f6e, 0x39, 0x0, 0x39);
      } else if v == 58 {
        Row(58, 1, 0x14da4af, 0x29b, 0x14da634, 0x14da4af, 0xd431ed8c, 0x1a863db, 0xd5998e57, 0xd431edbd, 0x25cba13b,
            0xf9fd8ec7, 0x2dcc634b, 0xb731, 0x2dccd47a);
      } else if v == 59 {
        Row(59, 1, 0xcf88be01, 0x19f11, 0xcf892110, 0xcf88be01, 0x16930110, 0x2d2602, 0x16be2712, 0x1693013d,
            0x24cc614a, 0x3b5f625a, 0x2dcc634a, 0xb731, 0x2dccd47b);
      } else if v == 60 {
        Row(60, 3, 0xbcaa115, 0x1795, 0xbcab680, 0xbcaa115, 0xf5677880, 0x1eacef1, 0xf48db671, 0xf56778bd, 0x869ba96d,
            0x7c0321ed, 0x8964596d, 0x22591, 0x89667cfc);
      } else if v == 61 {
        Row(61, 1, 0x93de420b, 0x127bc, 0x93df65b7, 0x93de420b, 0x3c848cdd, 0x790919, 0x3cfd85c4, 0x3c848cfd,
            0xd4c462b4, 0x1148ef91, 0x2dcc634c, 0xb731, 0x2dccd47d);
      } else if v == 62 {
        Row(62, 0, 0x1e178d52, 0x3c2f, 0x1e17b17d, 0x1e178d53, 0x66ab6487, 0xcd56c9, 0x6666324e, 0x66ab64bf, 0x32,
            0x66ab64b9, 0x3e, 0x0, 0x3e);
      } else if v == 63 {
        Row(63, 0, 0x1, 0x0, 0x1, 0x1, 0x1, 0x0, 0x1, 0x3d, 0x3d, 0x3e, 0x3f, 0x0, 0x3f);
      }
    }
  }

  lemma Rows64()
    ensures Word(72) == 72
    ensures forall v: nat :: 64 <= v < 72 && !Missing(v) ==> Reached(v)
  {
    hide Word, Mix, Reached;
    Rows56();
    WordSucc(64);
    WordSucc(65);
    WordSucc(66);
    WordSucc(67);
    WordSucc(68);
    WordSucc(69);
    WordSucc(70);
    WordSucc(71);
    forall v: nat | 64 <= v < 72 && !Missing(v) ensures Reached(v) {
      if v == 64 {
        Row(64, 0, 0x365220aa, 0x6ca4, 0x36524c0e, 0x365220ab, 0xe2f68d5a, 0x1c5ed1a, 0xe3336040, 0xe2f68d7f,
            0xffffffc0, 0xe2f68d1a, 0x40, 0x0, 0x40);
      } else if v == 65 {
        Row(65, 0, 0x5038658a, 0xa070, 0x5038c5fa, 0x5038658b, 0x639f20be, 0xc73e41, 0x63581eff, 0x639f20bf, 0x41,
            0x639f20ff, 0x41, 0x0, 0x41);
      } else if v == 67 {
        Row(67, 1, 0x855a8b5d, 0x10ab5, 0x855b81e8, 0x855a8b5d, 0x55572948, 0xaaae52, 0x55fd871a, 0x5557297d,
            0x234421b2, 0x789b4afa, 0x2dcc63b2, 0xb731, 0x2dccd483);
      } else if v == 68 {
        Row(68, 4, 0xc30a874a, 0x18615, 0xc30b015f, 0xc30a874b, 0x5ca87fd5, 0xb950ff, 0x5c112f2a, 0x5ca87ffd,
            0x8ef17282, 0xeb99f257, 0xb7318d82, 0x2dcc6, 0xb7335144);
      } else if v == 69 {
        Row(69, 0, 0xfab0163d, 0x1f560, 0xfab1e35d, 0xfab0163d, 0x27dd2b29, 0x4fba56, 0x2792917f, 0x27dd2b3d, 0x43,
            0x27dd2b6c, 0x45, 0x0, 0x45);
      } else if v == 70 {
        Row(70, 1, 0x2e0eaf6, 0x5c1, 0x2e0ef37, 0x2e0eaf7, 0x1fcf1411, 0x3f9e28, 0x1ff08a39, 0x1fcf143d, 0x12346395,
            0x320377a6, 0x2dcc63b7, 0xb731, 0x2dccd486);
      } else if v == 71 {
        Row(71, 1, 0xdb7cc349, 0x1b6f9, 0xdb7d75b0, 0xdb7cc349, 0xb8ab9f30, 0x171573e, 0xb9dac80e, 0xb8ab9f3d,
            0xdcbc5d56, 0x9567fc86, 0x2dcc63b6, 0xb731, 0x2dccd487);
      }
    }
  }

  lemma Rows72()
    ensures Word(76) == 76
    ensures forall v: nat :: 72 <= v < 76 && !Missing(v) ==> Reached(v)
  {
    hide Word, Mix, Reached;
    Rows64();
    WordSucc(72);
    WordSucc(73);
    WordSucc(74);
    WordSucc(75);
    forall v: nat | 72 <= v < 76 && !Missing(v) ensures Reached(v) {
      if v == 72 {
        Row(72, 1, 0x9b3b9f73, 0x13677, 0x9b3aa904, 0x9b3b9f73, 0x8a3f68cc, 0x1147ed1, 0x8b2b161d, 0x8a3f68fd,
            0x1db3a2a9, 0xa7f30b75, 0x2dcc63b9, 0xb731, 0x2dccd488);
      } else if v == 73 {
        Row(73, 3, 0x12f3ce46, 0x25e7, 0x12f3eba1, 0x12f3ce47, 0x8514e7a7, 0x10a29cf, 0x841ece68, 0x8514e7bf,
            0x875bd798, 0xc70bf3f, 0x89645898, 0x22591, 0x89667d09);
      } else if v == 74 {
        Row(74, 0, 0x7c8df7c1, 0xf91b, 0x7c8d0eda, 0x7c8df7c1, 0xc5be885a, 0x18b7d10, 0xc435f54a, 0xc5be887f,
            0xffffffb6, 0xc5be8810, 0x4a, 0x0, 0x4a);
      } else if v == 75 {
        Row(75, 1, 0x8b12f8b2, 0x11625, 0x8b13ee97, 0x8b12f8b3, 0x51b01b95, 0xa36037, 0x51137ba2, 0x51b01bbd,
            0x2acc5c9a, 0x7c7c782f, 0x2dcc63ba, 0xb731, 0x2dccd48b);
      }
    }
  }

  // ---- every state comes round again ----

  /** Enough steps to close any gap, after any number of full rounds. */
  lemma GapCloses(from: nat, gap: nat, rounds: nat)
    ensures from + (gap * STEPS_TO_ONE + MODULUS * rounds) * 0x6D2B79F5
      == (gap * 1576479847 + rounds * 0x6D2B79F5) * MODULUS + (from + gap)
  {
    assert 0x6D2B79F5 * STEPS_TO_ONE == 1 + MODULUS * 1576479847;
  }

  /** From every seed and every position on, the stream passes through every state. */
  lemma StateRecurs(seed: bv32, p: nat, t: bv32) returns (q: nat)
    ensures q >= p && StateAfter(seed, q + 1) == t
  {
    hide Word, Nat, StateAfter;
    WordNat(t);
    WordNat(seed);
    var gap := Nat(t) - Nat(seed) + MODULUS;
    var k: nat := gap * STEPS_TO_ONE + MODULUS * (p + 1);
    q := k - 1;
    StateIs(seed, k);
    GapCloses(Nat(seed), gap, p + 1);
    var m := gap * 1576479847 + (p + 1) * 0x6D2B79F5 + 1;
    assert Nat(seed) + k * 0x6D2B79F5 == m * MODULUS + Nat(t);
    Divide(m, Nat(t), MODULUS);
    WordMod(Nat(seed) + k * 0x6D2B79F5);
  }

  // ---- half of the cells are reached ----

  function Target(j: nat): nat {
    if j < 10 then j else if j < 18 then j + 1 else if j < 27 then j + 2 else if j < 63 then j + 3 else j + 4
  }

  ghost function Targets(m: nat): set<int> {
    if m == 0 then {} else Targets(m - 1) + {Target(m - 1)}
  }

  lemma {:induction false} TargetsFacts(m: nat)
    requires m <= 72
    ensures |Targets(m)| == m
    ensures forall v :: v in Targets(m) ==> 0 <= v < 76 && !Missing(v) && (m > 0 ==> v <= Target(m - 1))
  {
    if m > 0 { TargetsFacts(m - 1); }
  }

  lemma AllReached(v: nat)
    requires v < 76 && !Missing(v)
    ensures Reached(v)
  {
    hide Word, Reached;
    Rows0();
    Rows8();
    Rows16();
    Rows24();
    Rows32();
    Rows40();
    Rows48();
    Rows56();
    Rows64();
    Rows72();
  }

  lemma CommonMultiple(w: int, h: int)
    requires 4 <= w <= 12 && 4 <= h <= 12
    ensures COMMON % (w * h) == 0
  {
    SideDivides(w);
    SideDivides(h);
    assert COMMON == 27720 * 27720;
    var a, b := 27720 / w, 27720 / h;
    assert COMMON == (a * w) * (b * h) == (a * b) * (w * h);
    Divide(a * b, 0, w * h);
  }

  /** 27720 is the least common multiple of 4 .. 12, and COMMON its square. */
  lemma SideDivides(w: int)
    requires 4 <= w <= 12
    ensures (27720 / w) * w == 27720
  {}

  lemma ShiftByMultiple(v: nat, k: nat, n: nat, c: nat)
    requires 0 < n && v < n && c % n == 0
    ensures (v + k * c) % n == v
  {
    var m := c / n;
    assert c == m * n;
    assert k * c == (k * m) * n;
    assert v + k * c == (k * m) * n + v;
    Divide(k * m, v, n);
  }

  /** No set of fewer than half of the cells of a valid board absorbs the stream of any
      seed: some later draw points elsewhere. */
  lemma StreamIsLively(seed: bv32, w: int, h: int)
    requires 4 <= w <= 12 && 4 <= h <= 12
    ensures 16 <= w * h <= 144 && Lively(Outputs(seed), w * h)
  {
    hide Outputs, Escapes;
    BoardSize(w, h);
    forall p: nat, taken: set<int> | |taken| < w * h / 2
      ensures Escapes(Outputs(seed), w * h, taken, p)
    {
      StreamEscapes(seed, w, h, p, taken);
    }
  }

  lemma BoardSize(w: int, h: int)
    requires 4 <= w <= 12 && 4 <= h <= 12
    ensures 16 <= w * h <= 144
  {
    assert (w - 4) * h >= 0 && (12 - w) * h >= 0;
  }

  lemma Outside<T>(a: set<T>, b: set<T>) returns (v: T)
    requires |a| > |b|
    ensures v in a && v !in b
  {
    assert |a * b| + |b - a| == |b| by { assert a * b + (b - a) == b; }
    assert a <= b ==> a * b == a;
    v :| v in a && v !in b;
  }

  lemma StreamEscapes(seed: bv32, w: int, h: int, p: nat, taken: set<int>)
    requires 4 <= w <= 12 && 4 <= h <= 12 && 16 <= w * h <= 144 && |taken| < w * h / 2
    ensures Escapes(Outputs(seed), w * h, taken, p)
  {
    hide Word, Nat, Mix, StateAfter, Targets;
    var n := w * h;
    TargetsFacts(n / 2);
    var v := Outside(Targets(n / 2), taken);
    AllReached(v);
    var s: bv32, k: nat :| Leads(s, v, k);
    var q := StateRecurs(seed, p, s);
    NatWordSmall(v + k * COMMON);
    CommonMultiple(w, h);
    ShiftByMultiple(v, k, n, COMMON);
    assert Below(Outputs(seed)(q), n) == v;
    assert Hits(Outputs(seed), n, taken, p, q);
  }

  /** So every vault of a valid configuration whose weights can be drawn can be set up,
      from any state of the generator: lock placement always ends. */
  lemma ValidVaultsGenerate(engine: Engine, cfg: EventConfig, i: nat)
    requires Valid(cfg) && i < |cfg.vaults| && BoundOf(engine, cfg.vaults[i].weights.Total()) > 0
    ensures forall seed: bv32 :: CanGenerate(ArenaOf(engine, cfg, i), Outputs(seed))
  {
    hide Outputs, Lively;
    assert ValidVault(cfg.vaults[i], cfg.w * cfg.h);
    forall seed: bv32
      ensures CanGenerate(ArenaOf(engine, cfg, i), Outputs(seed))
    {
      StreamIsLively(seed, cfg.w, cfg.h);
    }
  }
}
